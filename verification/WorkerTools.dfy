/** What becomes of the tool requests of an agent worker (apps/agent-runtime/src/agent-worker.ts). */
module WorkerTools {
  import opened Wrappers
  import opened Output
  import opened AgentWorkerModel
  import opened WorkerGuarantees
  import Jsonl
  import ToolTranscript
  import ToolBroker
  import BrokerGuarantees

  /** The cancellations of a request id that were written. */
  function WrittenCancels(written: seq<OutRecord>, id: string): nat {
    if written == [] then 0
    else
      var earlier, last := WrittenCancels(written[..|written| - 1], id), written[|written| - 1];
      if IsCancelOf(last, id) then earlier + 1 else earlier
  }

  predicate IsCancelOf(r: OutRecord, id: string) {
    IsCancel(r) && r.kind.record.requestId == id
  }

  lemma WrittenAppend(written: seq<OutRecord>, r: OutRecord, id: string)
    ensures WrittenCancels(written + [r], id) == WrittenCancels(written, id) + (if IsCancelOf(r, id) then 1 else 0)
  {
    assert (written + [r])[..|written|] == written;
  }

  /** No more cancellations are written than the broker emitted, and it emits one a request. */
  ghost predicate ToolsInv(w: Worker) {
    && BrokerGuarantees.CancelledOnce(w.broker)
    && WritesWhatIsEmitted(w.output, w.broker)
  }

  ghost predicate WritesWhatIsEmitted(o: OutputState, b: ToolBroker.Broker) {
    forall id :: WrittenCancels(o.writer.written, id) <= BrokerGuarantees.CountCancels(b.emitted, id)
  }

  /** One record offered to the writer. */
  lemma WriteCounts(o: OutputState, next: OutputState, r: OutRecord, id: string)
    requires next.writer.written == o.writer.written || next.writer.written == o.writer.written + [r]
    ensures WrittenCancels(next.writer.written, id) <= WrittenCancels(o.writer.written, id)
      + (if IsCancelOf(r, id) then 1 else 0)
  {
    WrittenAppend(o.writer.written, r, id);
  }

  lemma {:induction false} QuietCounts(o: OutputState, wire: Wire, cancels: seq<OutRecord>, b: ToolBroker.Broker,
          after: ToolBroker.Broker, records: seq<ToolBroker.Record>)
    requires WritesWhatIsEmitted(o, b) && after.emitted == b.emitted + records && |cancels| == |records|
    requires forall i | 0 <= i < |records| :: cancels[i] == ToolRecord(records[i])
    ensures WritesWhatIsEmitted(EmitQuietly(o, wire, cancels), after)
    decreases |cancels|
  {
    if cancels == [] {
      assert after.emitted == b.emitted;
    } else {
      var next, broker := Emit(o, wire, cancels[0]).0, b.(emitted := b.emitted + [records[0]]);
      RecordCounts(o, wire, b, broker, records[0]);
      assert (b.emitted + [records[0]]) + records[1..] == b.emitted + records;
      QuietCounts(next, wire, cancels[1..], broker, after, records[1..]);
    }
  }

  /** A record of the broker, emitted and offered to the output. */
  lemma RecordCounts(o: OutputState, wire: Wire, b: ToolBroker.Broker, after: ToolBroker.Broker,
          record: ToolBroker.Record)
    requires WritesWhatIsEmitted(o, b) && after.emitted == b.emitted + [record]
    ensures WritesWhatIsEmitted(Emit(o, wire, ToolRecord(record)).0, after)
  {
    var next := Emit(o, wire, ToolRecord(record)).0;
    EmitWrites(o, wire, ToolRecord(record));
    forall id
      ensures WrittenCancels(next.writer.written, id) <= BrokerGuarantees.CountCancels(after.emitted, id) {
      WriteCounts(o, next, ToolRecord(record), id);
      BrokerGuarantees.CountsAppend(b.emitted, record, id);
    }
  }

  /** Any other record counts for nothing here. */
  lemma OtherCounts(o: OutputState, next: OutputState, b: ToolBroker.Broker, r: OutRecord)
    requires WritesWhatIsEmitted(o, b) && !IsCancel(r)
    requires next.writer.written == o.writer.written || next.writer.written == o.writer.written + [r]
    ensures WritesWhatIsEmitted(next, b)
  {
    forall id ensures WrittenCancels(next.writer.written, id) <= BrokerGuarantees.CountCancels(b.emitted, id) {
      WriteCounts(o, next, r, id);
    }
  }

  // ---------------------------------------------------------------- what every step keeps

  lemma StoppedTools(w: Worker, wire: Wire, reason: string)
    requires ToolsInv(w)
    ensures ToolsInv(Stopped(w, wire, reason))
  {
    if w.start.Some? {
      BrokerGuarantees.CancelAllOnce(w.broker, reason);
      BrokerGuarantees.CancelAllEmits(w.broker, reason);
      var records := seq(|w.broker.pending|, i requires 0 <= i < |w.broker.pending| =>
        ToolBroker.ToolCancel(w.broker.pending[i].requestId, reason));
      QuietCounts(w.output, wire, Cancellations(w.broker, reason), w.broker, ToolBroker.CancelAll(w.broker, reason),
        records);
    }
  }

  lemma TerminateTools(w: Worker, wire: Wire, state: TerminalState, reason: string)
    requires ToolsInv(w)
    ensures ToolsInv(Terminate(w, wire, state, reason))
  {
    if !Ending(w) {
      StoppedTools(Terminating(w, state, reason), wire, reason);
    }
  }

  lemma FinishTools(w: Worker, wire: Wire, state: TerminalState, reason: string, report: string)
    requires ToolsInv(w)
    ensures ToolsInv(Finish(w, wire, state, reason, report))
  {
    if !w.finalizing {
      var marked := w.(finalizing := true, cause := Caused(w, state));
      StoppedTools(marked, wire, reason);
      TerminalTools(Stopped(marked, wire, reason), wire, OutRecord(Terminal(state), 0, report));
    }
  }

  lemma TerminalTools(w: Worker, wire: Wire, r: OutRecord)
    requires ToolsInv(w) && r.kind.Terminal?
    ensures ToolsInv(w.(output := EmitTerminal(w.output, wire, r).0))
  {
    OtherCounts(w.output, EmitTerminal(w.output, wire, r).0, w.broker, r);
  }

  lemma RunEndsTools(w: Worker, wire: Wire, state: TerminalState, reason: string, report: string)
    requires ToolsInv(w)
    ensures ToolsInv(RunEnds(w, wire, state, reason, report))
  {
    FinishTools(w.(run := Over), wire, state, reason, report);
  }

  lemma NumberedTools(w: Worker, wire: Wire, kind: Kind, body: string, reason: string)
    requires ToolsInv(w) && (kind.Event? || kind.Usage?)
    ensures ToolsInv(Numbered(w, wire, kind, body, reason))
  {
    var r := OutRecord(kind, w.sequence + 1, body);
    EmitWrites(w.output, wire, r);
    OtherCounts(w.output, Emit(w.output, wire, r).0, w.broker, r);
    EmitRecordTools(w.(sequence := w.sequence + 1), wire, r, reason, Numbered(w, wire, kind, body, reason));
  }

  lemma EmitRecordTools(w: Worker, wire: Wire, r: OutRecord, reason: string, next: Worker)
    requires BrokerGuarantees.CancelledOnce(w.broker) && WritesWhatIsEmitted(Emit(w.output, wire, r).0, w.broker)
    requires next == EmitRecord(w, wire, r, reason)
    ensures ToolsInv(next)
  {
    var (output, error) := Emit(w.output, wire, r);
    if error.Some? {
      TerminateTools(w.(output := output), wire, ErrorState(error.value), reason);
    }
  }

  lemma StoredTools(w: Worker, wire: Wire, body: string)
    requires ToolsInv(w)
    ensures ToolsInv(EmitSessionMessage(w, wire, body))
  {
    if w.sessionSeq.Some? {
      var r := OutRecord(SessionMessage, w.sessionSeq.value, body);
      EmitSessionWrites(w.output, wire, r);
      OtherCounts(w.output, EmitSession(w.output, wire, r), w.broker, r);
    }
  }

  lemma {:induction false} AllStoredTools(w: Worker, wire: Wire, bodies: seq<string>)
    requires ToolsInv(w)
    ensures ToolsInv(EmitSessionMessages(w, wire, bodies))
    decreases |bodies|
  {
    if bodies != [] {
      StoredTools(w, wire, bodies[0]);
      AllStoredTools(EmitSessionMessage(w, wire, bodies[0]), wire, bodies[1..]);
    }
  }

  lemma EventTools(w: Worker, wire: Wire, e: SessionEvent, reason: string)
    requires ToolsInv(w)
    ensures ToolsInv(OnSessionEvent(w, wire, e, reason))
  {
    if w.start.Some? && w.session && !Ending(w) {
      ReportedTools(w, wire, e, reason);
      if e.usage.Some? {
        NumberedTools(Reported(w, wire, e, reason), wire, Usage, e.usage.value, reason);
      }
    }
  }

  lemma ReportedTools(w: Worker, wire: Wire, e: SessionEvent, reason: string)
    requires ToolsInv(w)
    ensures ToolsInv(Reported(w, wire, e, reason))
  {
    var stored := w;
    if e.message.Some? {
      StoredTools(w, wire, e.message.value);
      stored := EmitSessionMessage(w, wire, e.message.value);
    }
    if e.projected.Some? {
      NumberedTools(stored, wire, Kind.Event, e.projected.value, reason);
    }
  }

  /** The broker goes from `b` to `after`, and emits one record more or none. */
  ghost predicate EmitsAtMostOne(b: ToolBroker.Broker, after: ToolBroker.Broker) {
    after.emitted == b.emitted || (after.emitted != [] && after.emitted[..|after.emitted| - 1] == b.emitted)
  }

  lemma AfterBrokerTools(w: Worker, wire: Wire, after: ToolBroker.Broker, reason: string)
    requires ToolsInv(w) && BrokerGuarantees.CancelledOnce(after) && EmitsAtMostOne(w.broker, after)
    ensures ToolsInv(AfterBroker(w, wire, after, reason))
  {
    if |after.emitted| > |w.broker.emitted| {
      EmittedTools(w, wire, after, after.emitted[|after.emitted| - 1], reason, AfterBroker(w, wire, after, reason));
    }
  }

  lemma EmittedTools(w: Worker, wire: Wire, after: ToolBroker.Broker, record: ToolBroker.Record, reason: string,
          next: Worker)
    requires ToolsInv(w) && BrokerGuarantees.CancelledOnce(after) && after.emitted == w.broker.emitted + [record]
    requires next == EmitRecord(w.(broker := after), wire, ToolRecord(record), reason)
    ensures ToolsInv(next)
  {
    RecordCounts(w.output, wire, w.broker, after, record);
    EmitRecordTools(w.(broker := after), wire, ToolRecord(record), reason, next);
  }

  lemma ExecuteTools(w: Worker, wire: Wire, call: ToolCall, reason: string)
    requires ToolsInv(w)
    ensures ToolsInv(AfterBroker(w, wire, Executed(w.broker, wire.hash, call), reason))
  {
    BrokerGuarantees.ApplyOnce(w.broker, wire.hash,
      ToolBroker.ExecuteOp(call.operation, call.id, call.params, call.transcript, call.aborted));
    AfterBrokerTools(w, wire, Executed(w.broker, wire.hash, call), reason);
  }

  lemma AbortTools(w: Worker, wire: Wire, requestId: string, reason: string)
    requires ToolsInv(w)
    ensures ToolsInv(AfterBroker(w, wire, ToolBroker.Abort(w.broker, requestId), reason))
  {
    BrokerGuarantees.AbortOnce(w.broker, requestId);
    AbortEmits(w.broker, requestId);
    AfterBrokerTools(w, wire, ToolBroker.Abort(w.broker, requestId), reason);
  }

  lemma AbortEmits(b: ToolBroker.Broker, requestId: string)
    ensures EmitsAtMostOne(b, ToolBroker.Abort(b, requestId))
  {}

  lemma BeginTools(w: Worker, wire: Wire, input: Input, reason: string, report: string)
    requires ToolsInv(w) && input.StartInput?
    ensures ToolsInv(Begin(w, wire, input, reason, report))
  {
    var begun := w.(start := Some(input.limits), output := Configure(w.output, input.limits),
      historyLength := input.history, run := CreatingSession);
    assert ToolsInv(begun);
    RunEndsTools(begun, wire, CaughtState(begun, input.limitError), reason, report);
  }

  /** A result or a cancellation for the broker, which emits nothing. */
  lemma SettledTools(w: Worker, wire: Wire, op: ToolBroker.Op)
    requires ToolsInv(w) && (op.ResultOp? || op.CancelOp?)
    ensures ToolsInv(w.(broker := ToolBroker.Apply(w.broker, wire.hash, op)))
  {
    BrokerGuarantees.ApplyOnce(w.broker, wire.hash, op);
  }

  lemma ResultTools(w: Worker, wire: Wire, requestId: string, tooLarge: bool, final: bool, isError: bool,
          reason: string)
    requires ToolsInv(w)
    ensures ToolsInv(ReceiveResult(w, wire, requestId, tooLarge, final, isError, reason).0)
  {
    SettledTools(w, wire, ToolBroker.ResultOp(requestId, tooLarge, final, isError));
    TerminateTools(w.(broker := ToolBroker.AcceptResult(w.broker, requestId, tooLarge, final, isError).0), wire,
      LIMIT_EXCEEDED, reason);
  }

  lemma ReceiveTools(w: Worker, wire: Wire, input: Input, reason: string, report: string)
    requires ToolsInv(w)
    ensures ToolsInv(Receive(w, wire, input, reason, report).0)
  {
    match input
    case StartInput(_, _, _, _) => BeginTools(w, wire, input, reason, report);
    case ToolResultInput(requestId, tooLarge, final, isError) =>
      ResultTools(w, wire, requestId, tooLarge, final, isError, reason);
    case ToolCancelInput(requestId) => SettledTools(w, wire, ToolBroker.CancelOp(requestId));
    case CancelInput => TerminateTools(w, wire, CANCELLED, reason);
    case _ =>
  }

  lemma StepTools(w: Worker, wire: Wire, e: Entry)
    requires ToolsInv(w) && Enabled(w, e.step)
    ensures ToolsInv(Apply(w, wire, e.step, e.reason, e.report))
  {
    match e.step
    case Inbound(input) => ReceiveTools(w, wire, input, e.reason, e.report);
    case Interrupted => TerminateTools(w, wire, INTERRUPTED, e.reason);
    case DeadlinePassed => TerminateTools(w, wire, TIMED_OUT, e.reason);
    case FactorySettled(repairs, limitError) =>
      if repairs.Some? {
        AllStoredTools(w.(session := true, run := Prompting, sessionSeq := w.historyLength), wire, repairs.value);
      } else {
        RunEndsTools(w, wire, CaughtState(w, limitError), e.reason, e.report);
      }
    case Happened(event) => EventTools(w, wire, event, e.reason);
    case ToolExecutes(call) => ExecuteTools(w, wire, call, e.reason);
    case ToolAborts(requestId) => AbortTools(w, wire, requestId, e.reason);
    case PromptSettled(ok, limitError) => RunEndsTools(w, wire, CaughtState(w, limitError), e.reason, e.report);
    case IdleSettled(ok, limitError, failure) =>
      RunEndsTools(w, wire, if ok then GetOr(failure, SUCCEEDED) else CaughtState(w, limitError), e.reason, e.report);
    case WriteFailed => TerminateTools(w, wire, INTERRUPTED, e.reason);
    case DeliveryFailed => TerminateTools(w, wire, FAILED, e.reason);
    case AbortDone =>
      FinishTools(w.(terminating := false, aborting := None), wire, w.aborting.value, w.abortReason, e.report);
    case DiscardDone =>
  }

  lemma {:induction false} RunTools(w: Worker, wire: Wire, entries: seq<Entry>)
    requires ToolsInv(w) && CanRun(w, wire, entries)
    ensures ToolsInv(Run(w, wire, entries))
    decreases |entries|
  {
    if entries != [] {
      var e := entries[0];
      StepTools(w, wire, e);
      RunTools(Apply(w, wire, e.step, e.reason, e.report), wire, entries[1..]);
    }
  }

  /** Over every run, no tool request is cancelled twice, and none that is in flight has been. */
  lemma RequestsCancelledOnce(w: Worker, wire: Wire, id: string)
    requires Reachable(w, wire)
    ensures WrittenCancels(w.output.writer.written, id) + BrokerGuarantees.InFlight(w.broker.pending, id)
      <= BrokerGuarantees.CountRequests(w.broker.emitted, id)
  {
    var entries :| CanRun(InitialWorker(), wire, entries) && w == Run(InitialWorker(), wire, entries);
    RunTools(InitialWorker(), wire, entries);
  }

  // ---------------------------------------------------------------- what of it is written

  /** The tool records that were written. */
  function ToolRecords(written: seq<OutRecord>): seq<ToolBroker.Record> {
    if written == [] then []
    else
      var earlier, last := ToolRecords(written[..|written| - 1]), written[|written| - 1];
      if last.kind.Tool? then earlier + [last.kind.record] else earlier
  }

  lemma ToolRecordsAppend(written: seq<OutRecord>, r: OutRecord)
    ensures ToolRecords(written + [r]) == ToolRecords(written) + (if r.kind.Tool? then [r.kind.record] else [])
  {
    assert (written + [r])[..|written|] == written;
  }

  /** Until the run is ending, what the broker emitted is written, all of it and in order. */
  ghost predicate AllWritten(w: Worker) {
    !Ending(w) ==> ToolRecords(w.output.writer.written) == w.broker.emitted
  }

  /** A record that is no tool record. */
  lemma OtherWritten(w: Worker, next: Worker, r: OutRecord)
    requires AllWritten(w) && !Ending(w) && !r.kind.Tool? && next.broker.emitted == w.broker.emitted
    requires next.output.writer.written == w.output.writer.written
      || next.output.writer.written == w.output.writer.written + [r]
    ensures AllWritten(next)
  {
    ToolRecordsAppend(w.output.writer.written, r);
  }

  lemma NumberedWritten(w: Worker, wire: Wire, kind: Kind, body: string, reason: string)
    requires AllWritten(w) && Open(w.output) && w.cause.None? && (kind.Event? || kind.Usage?)
    ensures AllWritten(Numbered(w, wire, kind, body, reason))
  {
    if !Ending(w) {
      var r := OutRecord(kind, w.sequence + 1, body);
      NumberedEnds(w, wire, kind, body, reason);
      EmitWrites(w.output, wire, r);
      var next := Numbered(w, wire, kind, body, reason);
      if !Ending(next) {
        OtherWritten(w, next, r);
      }
    } else {
      assert Ending(Numbered(w, wire, kind, body, reason));
    }
  }

  lemma StoredWritten(w: Worker, wire: Wire, body: string)
    requires AllWritten(w) && !Ending(w)
    ensures AllWritten(EmitSessionMessage(w, wire, body)) && !Ending(EmitSessionMessage(w, wire, body))
  {
    if w.sessionSeq.Some? {
      var r := OutRecord(SessionMessage, w.sessionSeq.value, body);
      EmitSessionWrites(w.output, wire, r);
      OtherWritten(w, EmitSessionMessage(w, wire, body), r);
    }
  }

  lemma {:induction false} AllStoredWritten(w: Worker, wire: Wire, bodies: seq<string>)
    requires AllWritten(w) && !Ending(w)
    ensures AllWritten(EmitSessionMessages(w, wire, bodies))
    decreases |bodies|
  {
    if bodies != [] {
      StoredWritten(w, wire, bodies[0]);
      AllStoredWritten(EmitSessionMessage(w, wire, bodies[0]), wire, bodies[1..]);
    }
  }

  lemma EventWritten(w: Worker, wire: Wire, e: SessionEvent, reason: string)
    requires AllWritten(w) && Open(w.output) && !Ending(w) && w.cause.None?
    ensures AllWritten(OnSessionEvent(w, wire, e, reason))
  {
    if w.start.Some? && w.session {
      ShownWritten(w, wire, e, reason);
      ShownEnds(w, wire, e, reason);
      var reported := Reported(w, wire, e, reason);
      if e.usage.Some? {
        if Ending(reported) {
          assert Ending(Numbered(reported, wire, Usage, e.usage.value, reason));
        } else {
          NumberedWritten(reported, wire, Usage, e.usage.value, reason);
        }
      }
    }
  }

  lemma ShownWritten(w: Worker, wire: Wire, e: SessionEvent, reason: string)
    requires AllWritten(w) && Open(w.output) && !Ending(w) && w.cause.None?
    ensures AllWritten(Reported(w, wire, e, reason))
  {
    var stored := w;
    if e.message.Some? {
      StoredWritten(w, wire, e.message.value);
      stored := EmitSessionMessage(w, wire, e.message.value);
      if w.sessionSeq.Some? {
        StoringIsFree(w.output, wire, OutRecord(SessionMessage, w.sessionSeq.value, e.message.value));
      }
    }
    if e.projected.Some? {
      NumberedWritten(stored, wire, Kind.Event, e.projected.value, reason);
    }
  }

  lemma BrokerWritten(w: Worker, wire: Wire, after: ToolBroker.Broker, reason: string)
    requires AllWritten(w) && Open(w.output) && !Ending(w) && w.cause.None? && EmitsAtMostOne(w.broker, after)
    ensures AllWritten(AfterBroker(w, wire, after, reason))
  {
    if |after.emitted| > |w.broker.emitted| {
      var r := ToolRecord(after.emitted[|after.emitted| - 1]);
      EmittedWritten(w, wire, after, r, reason, AfterBroker(w, wire, after, reason));
    }
  }

  lemma EmittedWritten(w: Worker, wire: Wire, after: ToolBroker.Broker, r: OutRecord, reason: string, next: Worker)
    requires AllWritten(w) && Open(w.output) && !Ending(w) && w.cause.None? && r.kind.Tool?
    requires after.emitted == w.broker.emitted + [r.kind.record]
    requires next == EmitRecord(w.(broker := after), wire, r, reason)
    ensures AllWritten(next)
  {
    RecordEnds(w.(broker := after), wire, r, reason);
    EmissionFails(w.output, wire, r);
    ToolRecordsAppend(w.output.writer.written, r);
  }

  lemma InputWritten(w: Worker, wire: Wire, input: Input, reason: string, report: string)
    requires AllWritten(w) && !Ending(w)
    ensures AllWritten(Receive(w, wire, input, reason, report).0)
  {}

  lemma StepWritten(w: Worker, wire: Wire, e: Entry)
    requires WorkerInv(w, wire) && AllWritten(w) && Enabled(w, e.step)
    ensures AllWritten(Apply(w, wire, e.step, e.reason, e.report))
  {
    if Ending(w) {
      CauseStays(w, wire, e);
    } else {
      UnendedIsOpen(w, wire);
      match e.step
      case Inbound(input) => InputWritten(w, wire, input, e.reason, e.report);
      case FactorySettled(Some(repairs), _) =>
        AllStoredWritten(w.(session := true, run := Prompting, sessionSeq := w.historyLength), wire, repairs);
      case Happened(event) => EventWritten(w, wire, event, e.reason);
      case ToolExecutes(call) => BrokerWritten(w, wire, Executed(w.broker, wire.hash, call), e.reason);
      case ToolAborts(requestId) => BrokerWritten(w, wire, ToolBroker.Abort(w.broker, requestId), e.reason);
      case _ =>
    }
  }

  lemma {:induction false} RunWritten(w: Worker, wire: Wire, entries: seq<Entry>)
    requires WorkerInv(w, wire) && AllWritten(w) && CanRun(w, wire, entries)
    ensures AllWritten(Run(w, wire, entries))
    decreases |entries|
  {
    if entries != [] {
      var e := entries[0];
      ApplyKeeps(w, wire, e.step, e.reason, e.report);
      StepWritten(w, wire, e);
      RunWritten(Apply(w, wire, e.step, e.reason, e.report), wire, entries[1..]);
    }
  }

  /**
   * In every run, until it is ending, the tool records written are exactly those the broker emitted, in order. So a
   * cancellation without its request can only be written once the run is ending.
   */
  lemma ToolRecordsComplete(w: Worker, wire: Wire)
    requires Reachable(w, wire) && !Ending(w)
    ensures ToolRecords(w.output.writer.written) == w.broker.emitted
  {
    var entries :| CanRun(InitialWorker(), wire, entries) && w == Run(InitialWorker(), wire, entries);
    InitialInv(wire);
    assert InitialWorker().output.writer.written == [];
    RunWritten(InitialWorker(), wire, entries);
  }

  /**
   * How that comes about: the request that goes over a limit, or that the writer refuses, ends the run and is not
   * written. The broker has it in flight, so with room for the cancellations its own is the last of them.
   */
  lemma RefusedRequestIsCancelled(w: Worker, wire: Wire, call: ToolCall, reason: string)
    requires Reachable(w, wire) && w.start.Some? && !Ending(w)
    requires BrokerTrigger(w, wire, Executed(w.broker, wire.hash, call)).Some?
    ensures var after := Executed(w.broker, wire.hash, call);
      && Proxied(w.broker, after)
      && RefusedAndCancelled(w, wire, after, AfterBroker(w, wire, after, reason), reason)
  {
    ReachableInv(w, wire);
    UnendedIsOpen(w, wire);
    EmitsIffProxied(w.broker, wire.hash, call);
    var after := Executed(w.broker, wire.hash, call);
    BrokerEnds(w, wire, after, reason);
    RefusedEnds(w, wire, after, reason);
    LastCancel(after, reason);
  }

  /** The broker has taken in one more call, and emitted its request. */
  predicate Proxied(b: ToolBroker.Broker, after: ToolBroker.Broker) {
    && |after.emitted| == |b.emitted| + 1 && after.pending != []
    && after.emitted[|b.emitted|].ToolRequest?
    && after.pending[|after.pending| - 1].requestId == after.emitted[|b.emitted|].requestId
  }

  /** The executions that emit are those that are proxied. */
  lemma EmitsIffProxied(b: ToolBroker.Broker, hash: string -> string, call: ToolCall)
    ensures |Executed(b, hash, call).emitted| > |b.emitted| <==> Proxied(b, Executed(b, hash, call))
  {}

  /**
   * The request of the last call is not written; one cancellation for every call is, if there is room, its own
   * last.
   */
  predicate RefusedAndCancelled(w: Worker, wire: Wire, after: ToolBroker.Broker, next: Worker, reason: string)
    requires Proxied(w.broker, after)
  {
    var request, cancels := after.emitted[|w.broker.emitted|], Cancellations(after, reason);
    var o := Emit(w.output, wire, ToolRecord(request)).0;
    && Ending(next) && o.writer == w.output.writer
    && cancels != [] && cancels[|cancels| - 1] == ToolRecord(ToolBroker.ToolCancel(request.requestId, reason))
    && (HasRoomFor(o, wire, cancels) ==> next.output.writer.written == w.output.writer.written + cancels)
  }

  lemma LastCancel(after: ToolBroker.Broker, reason: string)
    requires after.pending != []
    ensures var cancels := Cancellations(after, reason);
      cancels != []
      && cancels[|cancels| - 1]
           == ToolRecord(ToolBroker.ToolCancel(after.pending[|after.pending| - 1].requestId, reason))
  {}

  lemma RefusedEnds(w: Worker, wire: Wire, after: ToolBroker.Broker, reason: string)
    requires Proxied(w.broker, after) && Open(w.output) && w.start.Some? && !Ending(w)
      && BrokerTrigger(w, wire, after).Some?
    ensures var o := Emit(w.output, wire, ToolRecord(after.emitted[|w.broker.emitted|])).0;
      && o.writer == w.output.writer
      && (HasRoomFor(o, wire, Cancellations(after, reason)) ==>
        AfterBroker(w, wire, after, reason).output.writer.written
          == w.output.writer.written + Cancellations(after, reason))
  {
    var r := ToolRecord(after.emitted[|w.broker.emitted|]);
    EmissionFails(w.output, wire, r);
    NotWritten(w.output, wire, r);
    var o := Emit(w.output, wire, r).0;
    if HasRoomFor(o, wire, Cancellations(after, reason)) {
      CancelsWithRoom(o, wire, Cancellations(after, reason));
    }
  }

  /** The steps as a run, all with one reason and an empty report. */
  function Entries(steps: seq<Step>, reason: string): seq<Entry> {
    seq(|steps|, i requires 0 <= i < |steps| => Entry(steps[i], reason, ""))
  }

  ghost predicate RunsTo(w: Worker, wire: Wire, steps: seq<Step>, reason: string, end: Worker) {
    CanRun(w, wire, Entries(steps, reason)) && Run(w, wire, Entries(steps, reason)) == end
  }

  lemma RunCons(w: Worker, wire: Wire, step: Step, steps: seq<Step>, reason: string, next: Worker, end: Worker)
    requires Enabled(w, step) && Apply(w, wire, step, reason, "") == next && RunsTo(next, wire, steps, reason, end)
    ensures RunsTo(w, wire, [step] + steps, reason, end)
  {
    assert Entries([step] + steps, reason)[1..] == Entries(steps, reason);
  }

  /** A worker whose session has begun, with nothing done yet. */
  function Begun(limits: OutputLimits): Worker {
    InitialWorker().(start := Some(limits), output := Configure(InitialOutput(), limits), session := true,
      run := Prompting)
  }

  function Beginning(limits: OutputLimits): seq<Step> {
    [Inbound(StartInput(limits, None, false, false)), FactorySettled(Some([]), false)]
  }

  function Starting(limits: OutputLimits): Worker {
    Begun(limits).(session := false, run := CreatingSession)
  }

  lemma Starts(wire: Wire, limits: OutputLimits, reason: string)
    ensures Apply(InitialWorker(), wire, Inbound(StartInput(limits, None, false, false)), reason, "")
      == Starting(limits)
  {}

  lemma Creates(wire: Wire, limits: OutputLimits, reason: string)
    ensures Apply(Starting(limits), wire, FactorySettled(Some([]), false), reason, "") == Begun(limits)
  {}

  lemma Begins(wire: Wire, limits: OutputLimits, steps: seq<Step>, reason: string, end: Worker)
    requires RunsTo(Begun(limits), wire, steps, reason, end)
    ensures RunsTo(InitialWorker(), wire, Beginning(limits) + steps, reason, end)
  {
    var start, created := Inbound(StartInput(limits, None, false, false)), FactorySettled(Some([]), false);
    Starts(wire, limits, reason);
    Creates(wire, limits, reason);
    RunCons(Starting(limits), wire, created, steps, reason, Begun(limits), end);
    RunCons(InitialWorker(), wire, start, [created] + steps, reason, Starting(limits), end);
    assert Beginning(limits) + steps == [start] + ([created] + steps);
  }

  /** The request of the first call of all. */
  function FirstRequest(hash: string -> string, call: ToolCall): ToolBroker.Record
    requires !call.aborted
  {
    Executed(ToolBroker.Init(), hash, call).emitted[0]
  }

  lemma FirstCall(hash: string -> string, call: ToolCall, after: ToolBroker.Broker, reason: string)
    requires !call.aborted && after == Executed(ToolBroker.Init(), hash, call)
    ensures after.emitted == [FirstRequest(hash, call)]
    ensures Cancellations(after, reason)
      == [ToolRecord(ToolBroker.ToolCancel(FirstRequest(hash, call).requestId, reason))]
  {}

  /** Over the limit, it leaves the output as it is, and there is room for its cancellation. */
  lemma FirstIsRefused(w: Worker, wire: Wire, limits: OutputLimits, request: OutRecord, cancel: OutRecord)
    requires w == Begun(limits) && Size(wire, request) > limits.maxOutputBytes
    requires Writable(wire, cancel) && Size(wire, cancel) <= limits.maxOutputBytes
    ensures EmissionFailure(w.output, wire, request).Some? && Emit(w.output, wire, request).0 == w.output
    ensures HasRoomFor(w.output, wire, [cancel]) && w.output.writer.written == []
  {
    assert TotalSize(wire, [cancel]) == Size(wire, cancel);
  }

  lemma BegunIsReachable(wire: Wire, limits: OutputLimits)
    ensures Reachable(Begun(limits), wire)
  {
    assert Entries([], "") == [];
    Begins(wire, limits, [], "", Begun(limits));
  }

  lemma FirstIsCancelled(w: Worker, wire: Wire, limits: OutputLimits, call: ToolCall, reason: string, end: Worker)
    requires w == Begun(limits) && !call.aborted
    requires Size(wire, ToolRecord(FirstRequest(wire.hash, call))) > limits.maxOutputBytes
    requires var cancel := ToolRecord(ToolBroker.ToolCancel(FirstRequest(wire.hash, call).requestId, reason));
      Writable(wire, cancel) && Size(wire, cancel) <= limits.maxOutputBytes
    requires end == AfterBroker(w, wire, Executed(w.broker, wire.hash, call), reason)
    ensures end.output.writer.written
      == [ToolRecord(ToolBroker.ToolCancel(FirstRequest(wire.hash, call).requestId, reason))]
  {
    var after := Executed(w.broker, wire.hash, call);
    var cancel := ToolRecord(ToolBroker.ToolCancel(FirstRequest(wire.hash, call).requestId, reason));
    FirstCall(wire.hash, call, after, reason);
    FirstIsRefused(w, wire, limits, ToolRecord(FirstRequest(wire.hash, call)), cancel);
    BegunIsReachable(wire, limits);
    RefusedRequestIsCancelled(w, wire, call, reason);
    assert [] + [cancel] == [cancel];
  }

  /** A run in which the first request is over the limit and its cancellation is not: only that is written. */
  lemma CancelledWithoutRequest(wire: Wire, limits: OutputLimits, call: ToolCall, reason: string)
    requires !call.aborted && Size(wire, ToolRecord(FirstRequest(wire.hash, call))) > limits.maxOutputBytes
    requires var cancel := ToolRecord(ToolBroker.ToolCancel(FirstRequest(wire.hash, call).requestId, reason));
      Writable(wire, cancel) && Size(wire, cancel) <= limits.maxOutputBytes
    ensures var entries := Entries(Beginning(limits) + [ToolExecutes(call)], reason);
      && CanRun(InitialWorker(), wire, entries)
      && Run(InitialWorker(), wire, entries).output.writer.written
           == [ToolRecord(ToolBroker.ToolCancel(FirstRequest(wire.hash, call).requestId, reason))]
  {
    var w := Begun(limits);
    var end := AfterBroker(w, wire, Executed(w.broker, wire.hash, call), reason);
    FirstIsCancelled(w, wire, limits, call, reason, end);
    assert Entries([], reason) == [];
    RunCons(w, wire, ToolExecutes(call), [], reason, end, end);
    Begins(wire, limits, [ToolExecutes(call)], reason, end);
  }

  function Bytes(s: string): seq<Jsonl.byte> {
    seq(|s|, i requires 0 <= i < |s| => s[i] as int % 256)
  }

  /** A bare encoding of tool records: the text that a request carries, and the reason of a cancellation. */
  function Bare(r: OutRecord): seq<Jsonl.byte> {
    match r.kind
    case Tool(ToolRequest(_, _, _, Text(chars))) => Bytes(chars)
    case Tool(ToolCancel(_, reason)) => Bytes(reason)
    case _ => []
  }

  const BARE_WIRE := Wire(Bare, (r: OutRecord) => true, 1_048_576, (s: string) => s)

  lemma CancelledWithoutRequestExample()
    ensures var limits := OutputLimits(100, 1024, 512);
      var call := ToolCall("write", "a", ToolTranscript.Text(seq(2000, i => 'x')), None, false);
      var entries := Entries(Beginning(limits) + [ToolExecutes(call)], "limit");
      && CanRun(InitialWorker(), BARE_WIRE, entries)
      && Run(InitialWorker(), BARE_WIRE, entries).output.writer.written
           == [ToolRecord(ToolBroker.ToolCancel("a", "limit"))]
  {
    var call := ToolCall("write", "a", ToolTranscript.Text(seq(2000, i => 'x')), None, false);
    CancelledWithoutRequest(BARE_WIRE, OutputLimits(100, 1024, 512), call, "limit");
  }

  predicate HasRoomFor(o: OutputState, wire: Wire, records: seq<OutRecord>) {
    && (forall i | 0 <= i < |records| :: Writable(wire, records[i]))
    && o.outputBytes + TotalSize(wire, records) <= o.limits.maxOutputBytes
  }

  lemma NotWritten(o: OutputState, wire: Wire, r: OutRecord)
    requires Open(o) && !r.kind.Terminal? && EmissionFailure(o, wire, r).Some?
    ensures var next := Emit(o, wire, r).0; Open(next) && next.writer == o.writer && next.limits == o.limits
  {}

  // ---------------------------------------------------------------- what is in flight after the end

  /** What a step that comes after the end does to the broker: only a tool call, or the abort of one, does something. */
  function ToolStep(b: ToolBroker.Broker, hash: string -> string, step: Step): ToolBroker.Broker {
    match step
    case ToolExecutes(call) => Executed(b, hash, call)
    case ToolAborts(requestId) => ToolBroker.Abort(b, requestId)
    case _ => b
  }

  function ToolSteps(b: ToolBroker.Broker, hash: string -> string, entries: seq<Entry>): ToolBroker.Broker
    decreases |entries|
  {
    if entries == [] then b else ToolSteps(ToolStep(b, hash, entries[0].step), hash, entries[1..])
  }

  /** The step is a call that the broker takes in under the request id. */
  predicate Requests(b: ToolBroker.Broker, hash: string -> string, step: Step, id: string) {
    && step.ToolExecutes?
    && var after := Executed(b, hash, step.call);
       |after.emitted| > |b.emitted| && after.emitted[|after.emitted| - 1].requestId == id
  }

  /** Entry `i` is a call taken in under the request id, and not aborted since. */
  ghost predicate OpenAt(b: ToolBroker.Broker, hash: string -> string, entries: seq<Entry>, i: nat, id: string)
    requires i < |entries|
  {
    && Requests(ToolSteps(b, hash, entries[..i]), hash, entries[i].step, id)
    && forall j | i < j < |entries| :: entries[j].step != ToolAborts(id)
  }

  ghost predicate LeftOpen(b: ToolBroker.Broker, hash: string -> string, entries: seq<Entry>, id: string) {
    exists i | 0 <= i < |entries| :: OpenAt(b, hash, entries, i, id)
  }

  lemma {:induction false} LastStep(b: ToolBroker.Broker, hash: string -> string, entries: seq<Entry>, e: Entry)
    ensures ToolSteps(b, hash, entries + [e]) == ToolStep(ToolSteps(b, hash, entries), hash, e.step)
    decreases |entries|
  {
    if entries == [] {
      assert entries + [e] == [e];
    } else {
      assert (entries + [e])[1..] == entries[1..] + [e];
      LastStep(ToolStep(b, hash, entries[0].step), hash, entries[1..], e);
    }
  }

  lemma StepInFlight(b: ToolBroker.Broker, hash: string -> string, step: Step, id: string)
    requires BrokerGuarantees.DistinctPending(b.pending)
    ensures var next := ToolStep(b, hash, step);
      && BrokerGuarantees.DistinctPending(next.pending)
      && (ToolBroker.IsPending(next, id) <==>
           Requests(b, hash, step, id) || (ToolBroker.IsPending(b, id) && step != ToolAborts(id)))
  {
    match step
    case ToolExecutes(call) => CallInFlight(b, hash, call, id);
    case ToolAborts(requestId) =>
      if ToolBroker.IsPending(b, requestId) {
        BrokerGuarantees.SettledIsGone(b.pending, ToolBroker.IndexOf(b.pending, requestId), id);
      }
    case _ =>
  }

  lemma CallInFlight(b: ToolBroker.Broker, hash: string -> string, call: ToolCall, id: string)
    requires BrokerGuarantees.DistinctPending(b.pending)
    ensures var next := Executed(b, hash, call);
      && BrokerGuarantees.DistinctPending(next.pending)
      && (ToolBroker.IsPending(next, id) <==> Requests(b, hash, ToolExecutes(call), id) || ToolBroker.IsPending(b, id))
  {
    EmitsIffProxied(b, hash, call);
    var next := Executed(b, hash, call);
    if |next.emitted| > |b.emitted| {
      var request := next.emitted[|b.emitted|];
      assert next.pending == b.pending + [ToolBroker.PendingCall(request.requestId, b.calls)];
      AddedIsPending(b.pending, ToolBroker.PendingCall(request.requestId, b.calls), id);
    } else {
      assert next.pending == b.pending;
    }
  }

  lemma {:induction false} AddedIsPending(pending: seq<ToolBroker.PendingCall>, p: ToolBroker.PendingCall, id: string)
    ensures ToolBroker.IndexOf(pending + [p], id) < |pending + [p]|
      <==> p.requestId == id || ToolBroker.IndexOf(pending, id) < |pending|
  {
    var all := pending + [p];
    if p.requestId == id {
      assert all[|pending|].requestId == id;
    }
    if ToolBroker.IndexOf(pending, id) < |pending| {
      assert all[ToolBroker.IndexOf(pending, id)].requestId == id;
    }
  }

  lemma OpenAtLast(b: ToolBroker.Broker, hash: string -> string, front: seq<Entry>, e: Entry, i: nat, id: string)
    requires i <= |front|
    ensures OpenAt(b, hash, front + [e], i, id) <==>
      if i < |front| then OpenAt(b, hash, front, i, id) && e.step != ToolAborts(id)
      else Requests(ToolSteps(b, hash, front), hash, e.step, id)
  {
    var entries := front + [e];
    assert entries[..i] == front[..i] && entries[|front|] == e;
    if i < |front| {
      assert forall j | i <= j < |front| :: entries[j] == front[j];
    } else {
      assert front[..i] == front;
    }
  }

  lemma OpenStep(b: ToolBroker.Broker, hash: string -> string, front: seq<Entry>, e: Entry, id: string)
    ensures LeftOpen(b, hash, front + [e], id) <==>
      Requests(ToolSteps(b, hash, front), hash, e.step, id)
      || (LeftOpen(b, hash, front, id) && e.step != ToolAborts(id))
  {
    forall i | 0 <= i <= |front|
      ensures OpenAt(b, hash, front + [e], i, id) <==>
        if i < |front| then OpenAt(b, hash, front, i, id) && e.step != ToolAborts(id)
        else Requests(ToolSteps(b, hash, front), hash, e.step, id)
    {
      OpenAtLast(b, hash, front, e, i, id);
    }
    if Requests(ToolSteps(b, hash, front), hash, e.step, id) {
      assert OpenAt(b, hash, front + [e], |front|, id);
    }
    if LeftOpen(b, hash, front, id) && e.step != ToolAborts(id) {
      var i :| 0 <= i < |front| && OpenAt(b, hash, front, i, id);
      assert OpenAt(b, hash, front + [e], i, id);
    }
  }

  /** In flight are exactly the calls that were taken in and not aborted since: nothing else settles them. */
  lemma {:induction false} InFlightIff(b: ToolBroker.Broker, hash: string -> string, entries: seq<Entry>, id: string)
    requires b.pending == []
    ensures BrokerGuarantees.DistinctPending(ToolSteps(b, hash, entries).pending)
    ensures ToolBroker.IsPending(ToolSteps(b, hash, entries), id) <==> LeftOpen(b, hash, entries, id)
    decreases |entries|
  {
    if entries != [] {
      var front, e := entries[..|entries| - 1], entries[|entries| - 1];
      assert entries == front + [e];
      InFlightIff(b, hash, front, id);
      LastStep(b, hash, front, e);
      StepInFlight(ToolSteps(b, hash, front), hash, e.step, id);
      OpenStep(b, hash, front, e, id);
    }
  }

  lemma EndedStep(w: Worker, wire: Wire, e: Entry)
    requires WorkerInv(w, wire) && w.finalizing && Enabled(w, e.step)
    ensures var next := Apply(w, wire, e.step, e.reason, e.report);
      next.finalizing && next.broker == ToolStep(w.broker, wire.hash, e.step)
  {}

  lemma {:induction false} EndedRun(w: Worker, wire: Wire, entries: seq<Entry>)
    requires WorkerInv(w, wire) && w.finalizing && CanRun(w, wire, entries)
    ensures Run(w, wire, entries).broker == ToolSteps(w.broker, wire.hash, entries)
    decreases |entries|
  {
    if entries != [] {
      var e := entries[0];
      ApplyKeeps(w, wire, e.step, e.reason, e.report);
      EndedStep(w, wire, e);
      EndedRun(Apply(w, wire, e.step, e.reason, e.report), wire, entries[1..]);
    }
  }

  /** Before the start there is no broker to have anything in flight. */
  ghost predicate NoToolsYet(w: Worker) {
    w.start.None? ==> w.broker.pending == []
  }

  lemma StepNoTools(w: Worker, wire: Wire, e: Entry)
    requires NoToolsYet(w) && Enabled(w, e.step) && WorkerInv(w, wire)
    ensures NoToolsYet(Apply(w, wire, e.step, e.reason, e.report))
  {
    if w.start.Some? {
      StartStaysInStep(w, wire, e);
    }
  }

  lemma {:induction false} RunNoTools(w: Worker, wire: Wire, entries: seq<Entry>)
    requires NoToolsYet(w) && WorkerInv(w, wire) && CanRun(w, wire, entries)
    ensures NoToolsYet(Run(w, wire, entries))
    decreases |entries|
  {
    if entries != [] {
      var e := entries[0];
      ApplyKeeps(w, wire, e.step, e.reason, e.report);
      StepNoTools(w, wire, e);
      RunNoTools(Apply(w, wire, e.step, e.reason, e.report), wire, entries[1..]);
    }
  }

  /** The step that ends the run leaves no request in flight. */
  lemma EndingStepClears(w: Worker, wire: Wire, e: Entry)
    requires WorkerInv(w, wire) && NoToolsYet(w) && !w.finalizing && Enabled(w, e.step)
    requires Apply(w, wire, e.step, e.reason, e.report).finalizing
    ensures Apply(w, wire, e.step, e.reason, e.report).broker.pending == []
  {
    match e.step
    case Inbound(input) => InputClears(w, wire, input, e.reason, e.report);
    case FactorySettled(Some(repairs), _) =>
      MessagesEndNothing(w.(session := true, run := Prompting, sessionSeq := w.historyLength), wire, repairs);
    case FactorySettled(None, limitError) => RunEndsClears(w, wire, CaughtState(w, limitError), e.reason, e.report);
    case PromptSettled(_, limitError) => RunEndsClears(w, wire, CaughtState(w, limitError), e.reason, e.report);
    case IdleSettled(ok, limitError, failure) =>
      RunEndsClears(w, wire, if ok then GetOr(failure, SUCCEEDED) else CaughtState(w, limitError), e.reason, e.report);
    case AbortDone =>
      FinishClears(w.(terminating := false, aborting := None), wire, w.aborting.value, w.abortReason, e.report);
    case Happened(event) => EventNeverFinishes(w, wire, event, e.reason);
    case ToolExecutes(call) => BrokerNeverFinishes(w, wire, Executed(w.broker, wire.hash, call), e.reason);
    case ToolAborts(requestId) => BrokerNeverFinishes(w, wire, ToolBroker.Abort(w.broker, requestId), e.reason);
    case _ =>
  }

  lemma RunEndsClears(w: Worker, wire: Wire, state: TerminalState, reason: string, report: string)
    requires NoToolsYet(w) && !w.finalizing
    ensures var next := RunEnds(w, wire, state, reason, report); next.finalizing ==> next.broker.pending == []
  {
    FinishClears(w.(run := Over), wire, state, reason, report);
  }

  lemma InputClears(w: Worker, wire: Wire, input: Input, reason: string, report: string)
    requires NoToolsYet(w) && !w.finalizing
    ensures var next := Receive(w, wire, input, reason, report).0; next.finalizing ==> next.broker.pending == []
  {
    if input.StartInput? && w.start.None? {
      var begun := w.(start := Some(input.limits), output := Configure(w.output, input.limits),
        historyLength := input.history, run := CreatingSession);
      RunEndsClears(begun, wire, CaughtState(begun, input.limitError), reason, report);
    }
  }

  lemma EventNeverFinishes(w: Worker, wire: Wire, e: SessionEvent, reason: string)
    ensures OnSessionEvent(w, wire, e, reason).finalizing == w.finalizing
  {}

  lemma BrokerNeverFinishes(w: Worker, wire: Wire, after: ToolBroker.Broker, reason: string)
    ensures AfterBroker(w, wire, after, reason).finalizing == w.finalizing
  {}

  lemma FinishClears(w: Worker, wire: Wire, state: TerminalState, reason: string, report: string)
    requires NoToolsYet(w) && !w.finalizing
    ensures Finish(w, wire, state, reason, report).broker.pending == []
  {
    NothingPendingAfter(w.broker, reason);
  }

  /**
   * The step that ends a run leaves no tool request in flight, and from then on in flight are exactly the calls that
   * the broker took in since and that were not aborted after that: nothing else settles them.
   */
  lemma InFlightAfterEnd(w: Worker, wire: Wire, entries: seq<Entry>)
    requires Reachable(w, wire) && !w.finalizing && entries != [] && CanRun(w, wire, entries)
    requires var e := entries[0]; Apply(w, wire, e.step, e.reason, e.report).finalizing
    ensures var e := entries[0]; var end := Apply(w, wire, e.step, e.reason, e.report);
      && end.broker.pending == []
      && Run(w, wire, entries).broker == ToolSteps(end.broker, wire.hash, entries[1..])
      && forall id :: ToolBroker.IsPending(Run(w, wire, entries).broker, id) <==>
                        LeftOpen(end.broker, wire.hash, entries[1..], id)
  {
    var past :| CanRun(InitialWorker(), wire, past) && w == Run(InitialWorker(), wire, past);
    InitialInv(wire);
    RunNoTools(InitialWorker(), wire, past);
    RunKeeps(InitialWorker(), wire, past);
    var e := entries[0];
    EndingStepClears(w, wire, e);
    ApplyKeeps(w, wire, e.step, e.reason, e.report);
    var end := Apply(w, wire, e.step, e.reason, e.report);
    EndedRun(end, wire, entries[1..]);
    forall id ensures ToolBroker.IsPending(Run(w, wire, entries).broker, id) <==>
                        LeftOpen(end.broker, wire.hash, entries[1..], id) {
      InFlightIff(end.broker, wire.hash, entries[1..], id);
    }
  }

  /** Nothing is in flight exactly when every call that was taken in has been aborted since. */
  lemma NothingInFlightIff(b: ToolBroker.Broker, hash: string -> string, entries: seq<Entry>)
    requires b.pending == []
    ensures ToolSteps(b, hash, entries).pending == [] <==> forall id :: !LeftOpen(b, hash, entries, id)
  {
    var end := ToolSteps(b, hash, entries);
    forall id ensures ToolBroker.IsPending(end, id) <==> LeftOpen(b, hash, entries, id) {
      InFlightIff(b, hash, entries, id);
    }
    if end.pending != [] {
      assert ToolBroker.IsPending(end, end.pending[0].requestId);
    }
  }

  const SUCCESS := [PromptSettled(true, false), IdleSettled(true, false, None)]

  /** The session has answered its prompt, and has come to rest. */
  function Prompted(limits: OutputLimits): Worker {
    Begun(limits).(run := AwaitingIdle)
  }

  function Rested(wire: Wire, limits: OutputLimits): Worker {
    RunEnds(Prompted(limits), wire, SUCCEEDED, "", "")
  }

  lemma Answers(wire: Wire, limits: OutputLimits)
    ensures Apply(Begun(limits), wire, PromptSettled(true, false), "", "") == Prompted(limits)
  {}

  lemma Rests(wire: Wire, limits: OutputLimits)
    ensures Apply(Prompted(limits), wire, IdleSettled(true, false, None), "", "") == Rested(wire, limits)
    ensures var w := Rested(wire, limits); w.finalizing && w.start.Some? && w.broker == ToolBroker.Init()
  {}

  lemma Succeeds(wire: Wire, limits: OutputLimits, steps: seq<Step>, end: Worker)
    requires RunsTo(Rested(wire, limits), wire, steps, "", end)
    ensures RunsTo(Begun(limits), wire, SUCCESS + steps, "", end)
  {
    var settled, idle := PromptSettled(true, false), IdleSettled(true, false, None);
    Answers(wire, limits);
    Rests(wire, limits);
    RunCons(Prompted(limits), wire, idle, steps, "", Rested(wire, limits), end);
    RunCons(Begun(limits), wire, settled, [idle] + steps, "", Prompted(limits), end);
    assert SUCCESS + steps == [settled] + ([idle] + steps);
  }

  lemma CalledAfterEnd(ended: Worker, wire: Wire, call: ToolCall, end: Worker)
    requires ended.finalizing && ended.broker == ToolBroker.Init()
    requires end == AfterBroker(ended, wire, Executed(ended.broker, wire.hash, call), "")
    ensures end.finalizing && |end.broker.pending| == if call.aborted then 0 else 1
  {
    BrokerNeverFinishes(ended, wire, Executed(ended.broker, wire.hash, call), "");
    EmitsIffProxied(ended.broker, wire.hash, call);
  }

  /** A run with a call after its end: unless it was aborted before, it stays in flight. */
  lemma CallAfterEnd(wire: Wire, limits: OutputLimits, call: ToolCall)
    ensures var entries := Entries(Beginning(limits) + (SUCCESS + [ToolExecutes(call)]), "");
      && CanRun(InitialWorker(), wire, entries)
      && var end := Run(InitialWorker(), wire, entries);
         end.finalizing && |end.broker.pending| == if call.aborted then 0 else 1
  {
    var w := Rested(wire, limits);
    var end := AfterBroker(w, wire, Executed(w.broker, wire.hash, call), "");
    Rests(wire, limits);
    CalledAfterEnd(w, wire, call, end);
    assert Entries([], "") == [];
    RunCons(w, wire, ToolExecutes(call), [], "", end, end);
    Succeeds(wire, limits, [ToolExecutes(call)], end);
    Begins(wire, limits, SUCCESS + [ToolExecutes(call)], "", end);
  }

  /** Without a tool call after the end, nothing is in flight ever after. */
  lemma {:induction false} NothingInFlightWithoutCalls(b: ToolBroker.Broker, hash: string -> string,
          entries: seq<Entry>)
    requires b.pending == []
    requires forall i | 0 <= i < |entries| && entries[i].step.ToolExecutes? :: entries[i].step.call.aborted
    ensures ToolSteps(b, hash, entries).pending == []
    decreases |entries|
  {
    if entries != [] {
      NothingInFlightWithoutCalls(ToolStep(b, hash, entries[0].step), hash, entries[1..]);
    }
  }
}
