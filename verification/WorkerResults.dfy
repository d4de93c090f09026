/** What results, cancellations and messages do in every run (apps/agent-runtime/src/agent-worker.ts). */
module WorkerResults {
  import opened Wrappers
  import opened Output
  import opened AgentWorkerModel
  import opened WorkerGuarantees
  import opened WorkerTools
  import ToolBroker
  import BrokerGuarantees

  // ---------------------------------------------------------------- what a step does to the calls in flight

  /** The step starts the end of the run, or completes it: either cancels every call in flight. */
  predicate Clears(w: Worker, next: Worker) {
    (!Ending(w) && Ending(next)) || (!w.finalizing && next.finalizing)
  }

  /** An abort, or, as long as nothing ends the run, a cancellation or a result that is final, failed or too large. */
  predicate Settles(w: Worker, step: Step, id: string) {
    match step
    case ToolAborts(requestId) => requestId == id
    case Inbound(ToolCancelInput(requestId)) => !Ending(w) && requestId == id
    case Inbound(ToolResultInput(requestId, tooLarge, final, isError)) =>
      !Ending(w) && requestId == id && (tooLarge || final || isError)
    case _ => false
  }

  predicate InFlight(w: Worker, id: string) {
    ToolBroker.IsPending(w.broker, id)
  }

  /** A step that does nothing to the broker, or ends the run and leaves nothing in flight. */
  ghost predicate Quiet(w: Worker, next: Worker) {
    if Clears(w, next) then next.broker.pending == [] else next.broker == w.broker
  }

  lemma StoppedClears(w: Worker, wire: Wire, reason: string)
    requires NoToolsYet(w)
    ensures Stopped(w, wire, reason).broker.pending == []
  {
    if w.start.Some? {
      NothingPendingAfter(w.broker, reason);
    }
  }

  lemma TerminateQuiet(w: Worker, wire: Wire, state: TerminalState, reason: string)
    requires NoToolsYet(w)
    ensures Quiet(w, Terminate(w, wire, state, reason))
  {
    if !Ending(w) {
      StoppedClears(Terminating(w, state, reason), wire, reason);
    }
  }

  lemma FinishQuiet(w: Worker, wire: Wire, state: TerminalState, reason: string, report: string)
    requires NoToolsYet(w) && !w.finalizing
    ensures var next := Finish(w, wire, state, reason, report); next.finalizing && next.broker.pending == []
  {
    StoppedClears(w.(finalizing := true, cause := Caused(w, state)), wire, reason);
  }

  lemma RunEndsQuiet(w: Worker, wire: Wire, state: TerminalState, reason: string, report: string)
    requires NoToolsYet(w)
    ensures Quiet(w, RunEnds(w, wire, state, reason, report))
  {
    if !Ending(w) {
      FinishQuiet(w.(run := Over), wire, state, reason, report);
    }
  }

  lemma RecordQuiet(w: Worker, wire: Wire, r: OutRecord, reason: string)
    requires NoToolsYet(w)
    ensures Quiet(w, EmitRecord(w, wire, r, reason)) && NoToolsYet(EmitRecord(w, wire, r, reason))
    ensures EmitRecord(w, wire, r, reason).finalizing == w.finalizing
    ensures Ending(w) ==> Ending(EmitRecord(w, wire, r, reason))
  {
    var (output, error) := Emit(w.output, wire, r);
    if error.Some? {
      TerminateQuiet(w.(output := output), wire, ErrorState(error.value), reason);
    }
  }

  lemma NumberedQuiet(w: Worker, wire: Wire, kind: Kind, body: string, reason: string, next: Worker)
    requires NoToolsYet(w) && next == Numbered(w, wire, kind, body, reason)
    ensures Quiet(w, next) && NoToolsYet(next) && next.finalizing == w.finalizing && (Ending(w) ==> Ending(next))
  {
    RecordQuiet(w.(sequence := w.sequence + 1), wire, OutRecord(kind, w.sequence + 1, body), reason);
  }

  lemma QuietTwice(a: Worker, b: Worker, c: Worker)
    requires Quiet(a, b) && Quiet(b, c) && a.finalizing == b.finalizing == c.finalizing
    requires (Ending(a) ==> Ending(b)) && (Ending(b) ==> Ending(c))
    ensures Quiet(a, c)
  {}

  lemma EventQuiet(w: Worker, wire: Wire, e: SessionEvent, reason: string)
    requires NoToolsYet(w)
    ensures Quiet(w, OnSessionEvent(w, wire, e, reason))
  {
    if w.start.Some? && w.session && !Ending(w) {
      var stored := if e.message.Some? then EmitSessionMessage(w, wire, e.message.value) else w;
      var shown := Reported(w, wire, e, reason);
      if e.projected.Some? {
        NumberedQuiet(stored, wire, Kind.Event, e.projected.value, reason, shown);
      }
      if e.usage.Some? {
        var next := OnSessionEvent(w, wire, e, reason);
        NumberedQuiet(shown, wire, Usage, e.usage.value, reason, next);
        QuietTwice(stored, shown, next);
      }
    }
  }

  lemma {:induction false} StoredQuiet(w: Worker, wire: Wire, bodies: seq<string>)
    ensures var next := EmitSessionMessages(w, wire, bodies);
      next.broker == w.broker && next.finalizing == w.finalizing && next.terminating == w.terminating
    decreases |bodies|
  {
    if bodies != [] {
      StoredQuiet(EmitSessionMessage(w, wire, bodies[0]), wire, bodies[1..]);
    }
  }

  /** Apart from inputs for the broker, and its own operations, every step is. */
  lemma OtherQuiet(w: Worker, wire: Wire, e: Entry)
    requires NoToolsYet(w) && WorkerInv(w, wire) && Enabled(w, e.step)
    requires !e.step.Inbound? && !e.step.ToolExecutes? && !e.step.ToolAborts?
    ensures Quiet(w, Apply(w, wire, e.step, e.reason, e.report))
  {
    match e.step
    case Interrupted => TerminateQuiet(w, wire, INTERRUPTED, e.reason);
    case DeadlinePassed => TerminateQuiet(w, wire, TIMED_OUT, e.reason);
    case FactorySettled(Some(repairs), _) =>
      StoredQuiet(w.(session := true, run := Prompting, sessionSeq := w.historyLength), wire, repairs);
    case FactorySettled(None, limitError) => RunEndsQuiet(w, wire, CaughtState(w, limitError), e.reason, e.report);
    case Happened(event) => EventQuiet(w, wire, event, e.reason);
    case PromptSettled(_, limitError) => RunEndsQuiet(w, wire, CaughtState(w, limitError), e.reason, e.report);
    case IdleSettled(ok, limitError, failure) =>
      RunEndsQuiet(w, wire, if ok then GetOr(failure, SUCCEEDED) else CaughtState(w, limitError), e.reason, e.report);
    case WriteFailed => TerminateQuiet(w, wire, INTERRUPTED, e.reason);
    case DeliveryFailed => TerminateQuiet(w, wire, FAILED, e.reason);
    case AbortDone =>
      FinishQuiet(w.(terminating := false, aborting := None), wire, w.aborting.value, w.abortReason, e.report);
    case _ =>
  }

  // ---------------------------------------------------------------- results and cancellations

  lemma TakenOut(b: ToolBroker.Broker, i: nat, ok: bool, id: string)
    requires BrokerGuarantees.DistinctPending(b.pending) && i < |b.pending|
    ensures var next := ToolBroker.Settle(b, i, ok);
      && BrokerGuarantees.DistinctPending(next.pending)
      && (ToolBroker.IsPending(next, id) <==> ToolBroker.IsPending(b, id) && id != b.pending[i].requestId)
  {
    BrokerGuarantees.SettledIsGone(b.pending, i, id);
  }

  /** What the broker does with a result, or with a cancellation. */
  lemma ResultTakesOut(b: ToolBroker.Broker, requestId: string, tooLarge: bool, final: bool, isError: bool, id: string)
    requires BrokerGuarantees.DistinctPending(b.pending)
    ensures var next := ToolBroker.AcceptResult(b, requestId, tooLarge, final, isError).0;
      && BrokerGuarantees.DistinctPending(next.pending)
      && (ToolBroker.IsPending(next, id) <==>
           ToolBroker.IsPending(b, id) && !(requestId == id && (tooLarge || final || isError)))
  {
    if ToolBroker.IsPending(b, requestId) {
      TakenOut(b, ToolBroker.IndexOf(b.pending, requestId), !isError, id);
      TakenOut(b, ToolBroker.IndexOf(b.pending, requestId), false, id);
    }
  }

  lemma CancelTakesOut(b: ToolBroker.Broker, requestId: string, id: string)
    requires BrokerGuarantees.DistinctPending(b.pending)
    ensures var next := ToolBroker.SettleError(b, requestId).0;
      && BrokerGuarantees.DistinctPending(next.pending)
      && (ToolBroker.IsPending(next, id) <==> ToolBroker.IsPending(b, id) && requestId != id)
  {
    if ToolBroker.IsPending(b, requestId) {
      TakenOut(b, ToolBroker.IndexOf(b.pending, requestId), false, id);
    }
  }

  // ---------------------------------------------------------------- in flight, over whole runs

  ghost predicate ToolState(w: Worker, wire: Wire) {
    WorkerInv(w, wire) && NoToolsYet(w) && BrokerGuarantees.DistinctPending(w.broker.pending)
  }

  /** What a step leaves in flight: a call that it takes in, and those that it neither settles nor clears. */
  ghost predicate StepLaw(w: Worker, wire: Wire, e: Entry, id: string)
    requires Enabled(w, e.step)
  {
    var next := Apply(w, wire, e.step, e.reason, e.report);
    && BrokerGuarantees.DistinctPending(next.broker.pending)
    && (InFlight(next, id) <==>
         && !Clears(w, next)
         && (Requests(w.broker, wire.hash, e.step, id) || (InFlight(w, id) && !Settles(w, e.step, id))))
  }

  lemma QuietLaw(w: Worker, wire: Wire, e: Entry, id: string)
    requires ToolState(w, wire) && Enabled(w, e.step) && !e.step.ToolExecutes?
    requires Quiet(w, Apply(w, wire, e.step, e.reason, e.report)) && !Settles(w, e.step, id)
    ensures StepLaw(w, wire, e, id)
  {}

  /** The broker has gone on to `after`, and offered what it emitted. */
  lemma AfterBrokerQuiet(w: Worker, wire: Wire, after: ToolBroker.Broker, reason: string, next: Worker)
    requires w.start.Some? && next == AfterBroker(w, wire, after, reason)
    ensures Quiet(w.(broker := after), next)
  {
    if |after.emitted| > |w.broker.emitted| {
      RecordQuiet(w.(broker := after), wire, ToolRecord(after.emitted[|after.emitted| - 1]), reason);
    }
  }

  lemma CallLaw(w: Worker, wire: Wire, e: Entry, id: string)
    requires ToolState(w, wire) && Enabled(w, e.step) && (e.step.ToolExecutes? || e.step.ToolAborts?)
    ensures StepLaw(w, wire, e, id)
  {
    var after := ToolStep(w.broker, wire.hash, e.step);
    var next := Apply(w, wire, e.step, e.reason, e.report);
    StepInFlight(w.broker, wire.hash, e.step, id);
    AfterBrokerQuiet(w, wire, after, e.reason, next);
  }

  lemma BeginQuiet(w: Worker, wire: Wire, input: Input, reason: string, report: string)
    requires NoToolsYet(w) && input.StartInput? && w.start.None?
    ensures Quiet(w, Begin(w, wire, input, reason, report))
  {
    var begun := w.(start := Some(input.limits), output := Configure(w.output, input.limits),
      historyLength := input.history, run := CreatingSession);
    if input.replayFails {
      RunEndsQuiet(begun, wire, CaughtState(begun, input.limitError), reason, report);
    }
  }

  lemma ResultLaw(w: Worker, wire: Wire, e: Entry, id: string)
    requires ToolState(w, wire) && e.step.Inbound? && e.step.input.ToolResultInput? && !Ending(w)
    ensures StepLaw(w, wire, e, id)
  {
    var input := e.step.input;
    var (after, thrown) :=
      ToolBroker.AcceptResult(w.broker, input.requestId, input.tooLarge, input.final, input.isError);
    ResultTakesOut(w.broker, input.requestId, input.tooLarge, input.final, input.isError, id);
    if w.start.Some? {
      var next := Apply(w, wire, e.step, e.reason, e.report);
      ResultNext(w, wire, e, after, thrown, next);
      if thrown == Some(ToolBroker.ResultLimit) {
        TerminateQuiet(w.(broker := after), wire, LIMIT_EXCEEDED, e.reason);
      }
    }
  }

  /** The broker takes the result; one over the limit ends the run. */
  lemma ResultNext(w: Worker, wire: Wire, e: Entry, after: ToolBroker.Broker, thrown: Option<ToolBroker.Thrown>,
          next: Worker)
    requires e.step.Inbound? && e.step.input.ToolResultInput? && !Ending(w) && w.start.Some? && !w.output.terminal
    requires var input := e.step.input;
      (after, thrown)
        == ToolBroker.AcceptResult(w.broker, input.requestId, input.tooLarge, input.final, input.isError)
    requires next == Apply(w, wire, e.step, e.reason, e.report)
    ensures thrown == Some(ToolBroker.ResultLimit) ==>
      && ToolBroker.IsPending(w.broker, e.step.input.requestId) && e.step.input.tooLarge
      && next == Terminate(w.(broker := after), wire, LIMIT_EXCEEDED, e.reason)
    ensures thrown != Some(ToolBroker.ResultLimit) ==> next == w.(broker := after)
    ensures e.step.input.tooLarge && ToolBroker.IsPending(w.broker, e.step.input.requestId)
      ==> thrown == Some(ToolBroker.ResultLimit)
  {}

  lemma InputLaw(w: Worker, wire: Wire, e: Entry, id: string)
    requires ToolState(w, wire) && e.step.Inbound?
    ensures StepLaw(w, wire, e, id)
  {
    var input := e.step.input;
    if Ending(w) || (w.start.None? && !input.StartInput?) {
      QuietStep(w, wire, e, id);
    } else {
      match input
      case StartInput(_, _, _, _) =>
        if w.start.None? {
          BeginQuiet(w, wire, input, e.reason, e.report);
        }
        QuietLaw(w, wire, e, id);
      case ToolResultInput(_, _, _, _) => ResultLaw(w, wire, e, id);
      case ToolCancelInput(requestId) => CancelTakesOut(w.broker, requestId, id);
      case CancelInput =>
        TerminateQuiet(w, wire, CANCELLED, e.reason);
        QuietLaw(w, wire, e, id);
      case _ => QuietLaw(w, wire, e, id);
    }
  }

  /** An input that is refused. */
  lemma QuietStep(w: Worker, wire: Wire, e: Entry, id: string)
    requires ToolState(w, wire) && e.step.Inbound? && (Ending(w) || (w.start.None? && !e.step.input.StartInput?))
    ensures StepLaw(w, wire, e, id)
  {
    assert Apply(w, wire, e.step, e.reason, e.report) == w;
  }

  lemma StepInFlightIff(w: Worker, wire: Wire, e: Entry, id: string)
    requires ToolState(w, wire) && Enabled(w, e.step)
    ensures StepLaw(w, wire, e, id)
  {
    if e.step.Inbound? {
      InputLaw(w, wire, e, id);
    } else if e.step.ToolExecutes? || e.step.ToolAborts? {
      CallLaw(w, wire, e, id);
    } else {
      OtherQuiet(w, wire, e);
      QuietLaw(w, wire, e, id);
    }
  }

  lemma StepToolState(w: Worker, wire: Wire, e: Entry)
    requires ToolState(w, wire) && Enabled(w, e.step)
    ensures ToolState(Apply(w, wire, e.step, e.reason, e.report), wire)
  {
    ApplyKeeps(w, wire, e.step, e.reason, e.report);
    StepNoTools(w, wire, e);
    StepInFlightIff(w, wire, e, "");
  }

  /** The worker before entry `i` of a run. */
  function At(w: Worker, wire: Wire, entries: seq<Entry>, i: nat): Worker
    requires CanRun(w, wire, entries) && i <= |entries|
    decreases i
  {
    if i == 0 then w
    else
      At(Apply(w, wire, entries[0].step, entries[0].reason, entries[0].report), wire, entries[1..], i - 1)
  }

  /** From entry `from` on, nothing settles the id, and no step clears what is in flight. */
  ghost predicate Untouched(w: Worker, wire: Wire, entries: seq<Entry>, from: nat, id: string)
    requires CanRun(w, wire, entries)
  {
    forall i | from <= i < |entries| ::
      !Settles(At(w, wire, entries, i), entries[i].step, id) && !ClearsAt(w, wire, entries, i)
  }

  predicate ClearsAt(w: Worker, wire: Wire, entries: seq<Entry>, i: nat)
    requires CanRun(w, wire, entries) && i < |entries|
  {
    Clears(At(w, wire, entries, i), At(w, wire, entries, i + 1))
  }

  /** Entry `i` takes in a call under the id, and nothing has touched it since. */
  ghost predicate TakenInAt(w: Worker, wire: Wire, entries: seq<Entry>, i: nat, id: string)
    requires CanRun(w, wire, entries) && i < |entries|
  {
    && Requests(At(w, wire, entries, i).broker, wire.hash, entries[i].step, id) && !ClearsAt(w, wire, entries, i)
    && Untouched(w, wire, entries, i + 1, id)
  }

  ghost predicate TakenIn(w: Worker, wire: Wire, entries: seq<Entry>, id: string)
    requires CanRun(w, wire, entries)
  {
    exists i | 0 <= i < |entries| :: TakenInAt(w, wire, entries, i, id)
  }

  lemma AtNext(w: Worker, wire: Wire, entries: seq<Entry>, i: nat)
    requires CanRun(w, wire, entries) && entries != [] && i < |entries|
    ensures var e := entries[0];
      At(w, wire, entries, i + 1) == At(Apply(w, wire, e.step, e.reason, e.report), wire, entries[1..], i)
  {}

  lemma UntouchedTail(w: Worker, wire: Wire, entries: seq<Entry>, from: nat, id: string)
    requires CanRun(w, wire, entries) && entries != [] && from < |entries|
    ensures var e := entries[0];
      Untouched(w, wire, entries, from + 1, id)
      <==> Untouched(Apply(w, wire, e.step, e.reason, e.report), wire, entries[1..], from, id)
  {
    var e, rest := entries[0], entries[1..];
    var next := Apply(w, wire, e.step, e.reason, e.report);
    forall i | 0 <= i < |rest|
      ensures rest[i] == entries[i + 1] && At(next, wire, rest, i) == At(w, wire, entries, i + 1)
      ensures ClearsAt(next, wire, rest, i) == ClearsAt(w, wire, entries, i + 1) {
      AtNext(w, wire, entries, i);
      AtNext(w, wire, entries, i + 1);
    }
    if Untouched(w, wire, entries, from + 1, id) {
      forall i | from <= i < |rest|
        ensures !Settles(At(next, wire, rest, i), rest[i].step, id) && !ClearsAt(next, wire, rest, i) {
        assert !Settles(At(w, wire, entries, i + 1), entries[i + 1].step, id) && !ClearsAt(w, wire, entries, i + 1);
      }
    }
    if Untouched(next, wire, rest, from, id) {
      forall i | from + 1 <= i < |entries|
        ensures !Settles(At(w, wire, entries, i), entries[i].step, id) && !ClearsAt(w, wire, entries, i) {
        assert !Settles(At(next, wire, rest, i - 1), rest[i - 1].step, id) && !ClearsAt(next, wire, rest, i - 1);
      }
    }
  }

  lemma UntouchedHead(w: Worker, wire: Wire, entries: seq<Entry>, id: string)
    requires CanRun(w, wire, entries) && entries != []
    ensures Untouched(w, wire, entries, 0, id) <==>
      Untouched(w, wire, entries, 1, id) && !Settles(w, entries[0].step, id) && !ClearsAt(w, wire, entries, 0)
  {
    assert At(w, wire, entries, 0) == w;
  }

  lemma TakenInTail(w: Worker, wire: Wire, entries: seq<Entry>, id: string)
    requires CanRun(w, wire, entries) && entries != []
    ensures var e := entries[0];
      TakenIn(w, wire, entries, id) <==>
      TakenInAt(w, wire, entries, 0, id)
      || TakenIn(Apply(w, wire, e.step, e.reason, e.report), wire, entries[1..], id)
  {
    var e, rest := entries[0], entries[1..];
    var next := Apply(w, wire, e.step, e.reason, e.report);
    forall i | 0 <= i < |rest| ensures TakenInAt(next, wire, rest, i, id) <==> TakenInAt(w, wire, entries, i + 1, id) {
      AtNext(w, wire, entries, i);
      AtNext(w, wire, entries, i + 1);
      UntouchedTail(w, wire, entries, i + 1, id);
    }
    if TakenIn(next, wire, rest, id) {
      var i :| 0 <= i < |rest| && TakenInAt(next, wire, rest, i, id);
      assert TakenInAt(w, wire, entries, i + 1, id);
    }
    if TakenIn(w, wire, entries, id) {
      var i :| 0 <= i < |entries| && TakenInAt(w, wire, entries, i, id);
      assert i > 0 ==> TakenInAt(next, wire, rest, i - 1, id);
    }
  }

  lemma {:induction false} RunInFlightIff(w: Worker, wire: Wire, entries: seq<Entry>, id: string)
    requires ToolState(w, wire) && CanRun(w, wire, entries)
    ensures InFlight(Run(w, wire, entries), id) <==>
      TakenIn(w, wire, entries, id) || (InFlight(w, id) && Untouched(w, wire, entries, 0, id))
    decreases |entries|
  {
    if entries != [] {
      var e := entries[0];
      var next := Apply(w, wire, e.step, e.reason, e.report);
      StepToolState(w, wire, e);
      StepInFlightIff(w, wire, e, id);
      RunInFlightIff(next, wire, entries[1..], id);
      UntouchedTail(w, wire, entries, 0, id);
      UntouchedHead(w, wire, entries, id);
      TakenInTail(w, wire, entries, id);
      AtNext(w, wire, entries, 0);
    }
  }

  /**
   * Over every run of a worker, before its end, while it is ending and after it: a request id is in flight exactly when
   * a call was taken in under it, and since then there was no abort of it, no step that ended the run, and, before that
   * end, no cancellation of it and no result for it that was final, failed or too large.
   */
  lemma InFlightOverRun(wire: Wire, entries: seq<Entry>, id: string)
    requires CanRun(InitialWorker(), wire, entries)
    ensures InFlight(Run(InitialWorker(), wire, entries), id) <==> TakenIn(InitialWorker(), wire, entries, id)
  {
    InitialInv(wire);
    RunInFlightIff(InitialWorker(), wire, entries, id);
  }

  // ---------------------------------------------------------------- how a call is settled

  lemma IndexOfPending(pending: seq<ToolBroker.PendingCall>, call: ToolBroker.PendingCall)
    requires BrokerGuarantees.DistinctPending(pending) && call in pending
    ensures ToolBroker.IndexOf(pending, call.requestId) < |pending|
    ensures pending[ToolBroker.IndexOf(pending, call.requestId)] == call
  {
    var i :| 0 <= i < |pending| && pending[i] == call;
    var j := ToolBroker.IndexOf(pending, call.requestId);
    assert pending[i].requestId == call.requestId;
  }

  lemma {:induction false} CancelAllExtends(b: ToolBroker.Broker, reason: string)
    ensures b.settled <= ToolBroker.CancelAll(b, reason).settled
    decreases |b.pending|
  {
    if b.pending != [] {
      var cancel := ToolBroker.ToolCancel(b.pending[0].requestId, reason);
      CancelAllExtends(ToolBroker.SettleCancelled(b, 0).(emitted := b.emitted + [cancel]), reason);
    }
  }

  lemma ReachableTools(w: Worker, wire: Wire)
    requires Reachable(w, wire)
    ensures ToolState(w, wire)
  {
    ReachableInv(w, wire);
    var entries :| CanRun(InitialWorker(), wire, entries) && w == Run(InitialWorker(), wire, entries);
    InitialInv(wire);
    RunNoTools(InitialWorker(), wire, entries);
    RunTools(InitialWorker(), wire, entries);
  }

  /**
   * A result for a call in flight, while nothing ends the run: one that is final, failed or too large settles the call,
   * as a success only if it is final, not failed and not too large; one that is too large also ends the run. Anything
   * else is progress, and changes nothing.
   */
  lemma ResultSettles(w: Worker, wire: Wire, call: ToolBroker.PendingCall, tooLarge: bool, final: bool, isError: bool,
          reason: string, report: string)
    requires Reachable(w, wire) && !Ending(w) && call in w.broker.pending
    ensures var (next, error) :=
        Receive(w, wire, ToolResultInput(call.requestId, tooLarge, final, isError), reason, report);
      && error.None?
      && (tooLarge || final || isError ==>
           && !InFlight(next, call.requestId)
           && w.broker.settled + [ToolBroker.Settlement(call.call, final && !isError && !tooLarge)]
                <= next.broker.settled)
      && (!tooLarge ==> !Ending(next) && next.output == w.output && |next.broker.settled| <= |w.broker.settled| + 1)
      && (tooLarge ==> next.cause == Some(LIMIT_EXCEEDED) && next.broker.pending == [])
      && (!tooLarge && !final && !isError ==> next == w)
  {
    ReachableTools(w, wire);
    var b := w.broker;
    var (after, thrown) := ToolBroker.AcceptResult(b, call.requestId, tooLarge, final, isError);
    BrokerSettles(b, call, tooLarge, final, isError);
    ResultTakesOut(b, call.requestId, tooLarge, final, isError, call.requestId);
    var e := Entry(Inbound(ToolResultInput(call.requestId, tooLarge, final, isError)), reason, report);
    ResultNext(w, wire, e, after, thrown, Apply(w, wire, e.step, reason, report));
    if tooLarge {
      TerminateQuiet(w.(broker := after), wire, LIMIT_EXCEEDED, reason);
      CancelAllExtends(after, reason);
    }
  }

  lemma BrokerSettles(b: ToolBroker.Broker, call: ToolBroker.PendingCall, tooLarge: bool, final: bool, isError: bool)
    requires BrokerGuarantees.DistinctPending(b.pending) && call in b.pending
    ensures var (after, thrown) := ToolBroker.AcceptResult(b, call.requestId, tooLarge, final, isError);
      && after.settled == b.settled + (if tooLarge || final || isError
           then [ToolBroker.Settlement(call.call, final && !isError && !tooLarge)] else [])
      && (thrown.Some? <==> tooLarge) && (tooLarge ==> thrown == Some(ToolBroker.ResultLimit))
      && (!tooLarge && !final && !isError ==> after == b)
  {
    IndexOfPending(b.pending, call);
  }

  /** A cancellation of a call in flight settles it as failed. */
  lemma CancellationSettles(w: Worker, wire: Wire, call: ToolBroker.PendingCall, reason: string, report: string)
    requires Reachable(w, wire) && !Ending(w) && call in w.broker.pending
    ensures var (next, error) := Receive(w, wire, ToolCancelInput(call.requestId), reason, report);
      && error.None? && !Ending(next) && next.output == w.output && !InFlight(next, call.requestId)
      && next.broker.settled == w.broker.settled + [ToolBroker.Settlement(call.call, false)]
  {
    ReachableTools(w, wire);
    IndexOfPending(w.broker.pending, call);
    CancelTakesOut(w.broker, call.requestId, call.requestId);
  }

  /** A result or a cancellation for no call in flight is refused, unless the id is one that was cancelled. */
  lemma UnknownIsRefused(w: Worker, wire: Wire, input: Input, reason: string, report: string)
    requires Reachable(w, wire) && w.start.Some? && !Ending(w)
    requires (input.ToolResultInput? || input.ToolCancelInput?) && !InFlight(w, input.requestId)
    ensures var (next, error) := Receive(w, wire, input, reason, report);
      && error == (if input.requestId in w.broker.cancelled then None else Some(UnknownTool))
      && next == w.(broker := next.broker)
      && next.broker == w.broker.(cancelled := next.broker.cancelled)
      && (error.Some? ==> next == w)
  {
    ReachableInv(w, wire);
  }

  // ---------------------------------------------------------------- which messages are taken in

  /** The message that a step takes in: one that is not refused. */
  function TakenMessage(w: Worker, wire: Wire, e: Entry): seq<UserMessage>
    requires Enabled(w, e.step)
  {
    match e.step
    case Inbound(MessageInput(m)) =>
      if Receive(w, wire, e.step.input, e.reason, e.report).1.None? then [m] else []
    case _ => []
  }

  function TakenMessages(w: Worker, wire: Wire, entries: seq<Entry>): seq<UserMessage>
    requires CanRun(w, wire, entries)
    decreases |entries|
  {
    if entries == [] then []
    else
      var e := entries[0];
      TakenMessage(w, wire, e) + TakenMessages(Apply(w, wire, e.step, e.reason, e.report), wire, entries[1..])
  }

  lemma {:induction false} StoredAccepts(w: Worker, wire: Wire, bodies: seq<string>)
    ensures EmitSessionMessages(w, wire, bodies).accepted == w.accepted
    decreases |bodies|
  {
    if bodies != [] {
      StoredAccepts(EmitSessionMessage(w, wire, bodies[0]), wire, bodies[1..]);
    }
  }

  lemma EventAccepts(w: Worker, wire: Wire, e: SessionEvent, reason: string)
    ensures OnSessionEvent(w, wire, e, reason).accepted == w.accepted
  {}

  lemma InputAccepts(w: Worker, wire: Wire, e: Entry)
    requires e.step.Inbound?
    ensures Receive(w, wire, e.step.input, e.reason, e.report).0.accepted == w.accepted + TakenMessage(w, wire, e)
  {}

  lemma StepAccepts(w: Worker, wire: Wire, e: Entry)
    requires Enabled(w, e.step)
    ensures Apply(w, wire, e.step, e.reason, e.report).accepted == w.accepted + TakenMessage(w, wire, e)
  {
    match e.step
    case Inbound(_) => InputAccepts(w, wire, e);
    case FactorySettled(Some(repairs), _) =>
      StoredAccepts(w.(session := true, run := Prompting, sessionSeq := w.historyLength), wire, repairs);
    case Happened(event) => EventAccepts(w, wire, event, e.reason);
    case ToolExecutes(call) => BrokerAccepts(w, wire, Executed(w.broker, wire.hash, call), e.reason);
    case ToolAborts(requestId) => BrokerAccepts(w, wire, ToolBroker.Abort(w.broker, requestId), e.reason);
    case _ =>
  }

  lemma BrokerAccepts(w: Worker, wire: Wire, after: ToolBroker.Broker, reason: string)
    ensures AfterBroker(w, wire, after, reason).accepted == w.accepted
  {}

  lemma {:induction false} RunAccepts(w: Worker, wire: Wire, entries: seq<Entry>)
    requires CanRun(w, wire, entries)
    ensures Run(w, wire, entries).accepted == w.accepted + TakenMessages(w, wire, entries)
    decreases |entries|
  {
    if entries == [] {
      assert w.accepted + [] == w.accepted;
    } else {
      var e := entries[0];
      var next := Apply(w, wire, e.step, e.reason, e.report);
      StepAccepts(w, wire, e);
      RunAccepts(next, wire, entries[1..]);
      Joined(w.accepted, TakenMessage(w, wire, e), TakenMessages(next, wire, entries[1..]));
    }
  }

  lemma Joined<T>(a: seq<T>, b: seq<T>, c: seq<T>)
    ensures (a + b) + c == a + (b + c)
  {}

  /** A message is refused exactly when the worker is not at work, or has no session yet and a full queue. */
  lemma MessageRefusedIff(w: Worker, wire: Wire, m: UserMessage, reason: string, report: string)
    requires Reachable(w, wire)
    ensures Receive(w, wire, MessageInput(m), reason, report).1.Some? <==>
      || w.start.None? || Ending(w)
      || (!w.session && (|w.pendingMessages| == 64 || MessageBytes(w.pendingMessages) + m.bytes > 524_288))
  {
    ReachableInv(w, wire);
  }

  /**
   * Over every run, the messages that were not refused are handed to the session in the order in which they came: all
   * of them once there is a session, and all that wait are handed over when it is created.
   */
  lemma MessagesArriveInOrder(wire: Wire, entries: seq<Entry>)
    requires CanRun(InitialWorker(), wire, entries)
    ensures var w := Run(InitialWorker(), wire, entries);
      && TakenMessages(InitialWorker(), wire, entries) == w.delivered + w.pendingMessages
      && (w.session ==> w.delivered == TakenMessages(InitialWorker(), wire, entries))
  {
    var w := Run(InitialWorker(), wire, entries);
    ReachableInv(w, wire);
    RunAccepts(InitialWorker(), wire, entries);
  }
}
