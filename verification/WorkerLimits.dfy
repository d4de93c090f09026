/** When a worker's output goes over its limits, counted on what is written (apps/agent-runtime/src/output.ts). */
module WorkerLimits {
  import opened Wrappers
  import opened Output
  import opened AgentWorkerModel
  import opened WorkerGuarantees
  import opened WorkerTools
  import ToolBroker

  /** Until the run is ending, what is charged is what is written. */
  ghost predicate Charged(w: Worker, wire: Wire) {
    !Ending(w) ==> Exact(w.output, wire)
  }

  ghost predicate Exact(o: OutputState, wire: Wire) {
    o.events == EventCount(o.writer.written) && o.outputBytes == CallerBytes(wire, o.writer.written)
  }

  lemma RecordCharged(w: Worker, wire: Wire, r: OutRecord, reason: string, next: Worker)
    requires Charged(w, wire) && Open(w.output) && !Ending(w) && w.cause.None? && IsCaller(r)
    requires next == EmitRecord(w, wire, r, reason)
    ensures Charged(next, wire)
  {
    RecordEnds(w, wire, r, reason);
    EmissionFails(w.output, wire, r);
    CountsAppend(wire, w.output.writer.written, r);
  }

  lemma NumberedCharged(w: Worker, wire: Wire, kind: Kind, body: string, reason: string, next: Worker)
    requires Charged(w, wire) && Open(w.output) && !Ending(w) && w.cause.None? && (kind.Event? || kind.Usage?)
    requires next == Numbered(w, wire, kind, body, reason)
    ensures Charged(next, wire)
  {
    RecordCharged(w.(sequence := w.sequence + 1), wire, OutRecord(kind, w.sequence + 1, body), reason, next);
  }

  lemma StoredCharged(w: Worker, wire: Wire, body: string)
    requires Charged(w, wire) && !Ending(w)
    ensures Charged(EmitSessionMessage(w, wire, body), wire) && !Ending(EmitSessionMessage(w, wire, body))
  {
    if w.sessionSeq.Some? {
      var r := OutRecord(SessionMessage, w.sessionSeq.value, body);
      EmitSessionWrites(w.output, wire, r);
      CountsAppend(wire, w.output.writer.written, r);
    }
  }

  lemma {:induction false} AllStoredCharged(w: Worker, wire: Wire, bodies: seq<string>)
    requires Charged(w, wire) && !Ending(w)
    ensures Charged(EmitSessionMessages(w, wire, bodies), wire)
    decreases |bodies|
  {
    if bodies != [] {
      StoredCharged(w, wire, bodies[0]);
      AllStoredCharged(EmitSessionMessage(w, wire, bodies[0]), wire, bodies[1..]);
    }
  }

  lemma ShownCharged(w: Worker, wire: Wire, e: SessionEvent, reason: string, shown: Worker)
    requires Charged(w, wire) && Open(w.output) && !Ending(w) && w.cause.None?
    requires shown == Reported(w, wire, e, reason)
    ensures Charged(shown, wire)
  {
    var stored := w;
    if e.message.Some? {
      StoredCharged(w, wire, e.message.value);
      stored := EmitSessionMessage(w, wire, e.message.value);
      if w.sessionSeq.Some? {
        StoringIsFree(w.output, wire, OutRecord(SessionMessage, w.sessionSeq.value, e.message.value));
      }
    }
    if e.projected.Some? {
      NumberedCharged(stored, wire, Kind.Event, e.projected.value, reason, shown);
    }
  }

  lemma EventCharged(w: Worker, wire: Wire, e: SessionEvent, reason: string, next: Worker)
    requires Charged(w, wire) && Open(w.output) && !Ending(w) && w.cause.None?
    requires next == OnSessionEvent(w, wire, e, reason)
    ensures Charged(next, wire)
  {
    if w.start.Some? && w.session {
      var shown := Reported(w, wire, e, reason);
      ShownCharged(w, wire, e, reason, shown);
      ShownEnds(w, wire, e, reason);
      if e.usage.Some? {
        if Ending(shown) {
          assert Ending(next);
        } else {
          NumberedCharged(shown, wire, Usage, e.usage.value, reason, next);
        }
      }
    }
  }

  lemma BrokerCharged(w: Worker, wire: Wire, after: ToolBroker.Broker, reason: string, next: Worker)
    requires Charged(w, wire) && Open(w.output) && !Ending(w) && w.cause.None?
    requires next == AfterBroker(w, wire, after, reason)
    ensures Charged(next, wire)
  {
    if |after.emitted| > |w.broker.emitted| {
      var r := ToolRecord(after.emitted[|after.emitted| - 1]);
      RecordCharged(w.(broker := after), wire, r, reason, next);
    }
  }

  lemma InputCharged(w: Worker, wire: Wire, input: Input, reason: string, report: string)
    requires Charged(w, wire) && !Ending(w)
    ensures Charged(Receive(w, wire, input, reason, report).0, wire)
  {}

  lemma StepCharged(w: Worker, wire: Wire, e: Entry)
    requires WorkerInv(w, wire) && Charged(w, wire) && Enabled(w, e.step)
    ensures Charged(Apply(w, wire, e.step, e.reason, e.report), wire)
  {
    if Ending(w) {
      CauseStays(w, wire, e);
    } else {
      UnendedIsOpen(w, wire);
      var next := Apply(w, wire, e.step, e.reason, e.report);
      match e.step
      case Inbound(input) => InputCharged(w, wire, input, e.reason, e.report);
      case FactorySettled(Some(repairs), _) =>
        AllStoredCharged(w.(session := true, run := Prompting, sessionSeq := w.historyLength), wire, repairs);
      case Happened(event) => EventCharged(w, wire, event, e.reason, next);
      case ToolExecutes(call) => BrokerCharged(w, wire, Executed(w.broker, wire.hash, call), e.reason, next);
      case ToolAborts(requestId) => BrokerCharged(w, wire, ToolBroker.Abort(w.broker, requestId), e.reason, next);
      case _ =>
    }
  }

  lemma {:induction false} RunCharged(w: Worker, wire: Wire, entries: seq<Entry>)
    requires WorkerInv(w, wire) && Charged(w, wire) && CanRun(w, wire, entries)
    ensures Charged(Run(w, wire, entries), wire)
    decreases |entries|
  {
    if entries != [] {
      var e := entries[0];
      ApplyKeeps(w, wire, e.step, e.reason, e.report);
      StepCharged(w, wire, e);
      RunCharged(Apply(w, wire, e.step, e.reason, e.report), wire, entries[1..]);
    }
  }

  /** In every run, until it is ending, the budgets are charged exactly with what is written. */
  lemma ChargesAreExact(w: Worker, wire: Wire)
    requires Reachable(w, wire) && !Ending(w)
    ensures w.output.events == EventCount(w.output.writer.written)
    ensures w.output.outputBytes == CallerBytes(wire, w.output.writer.written)
  {
    var entries :| CanRun(InitialWorker(), wire, entries) && w == Run(InitialWorker(), wire, entries);
    InitialInv(wire);
    assert InitialWorker().output.writer.written == [];
    RunCharged(InitialWorker(), wire, entries);
  }

  /** With this record, what is written would be over a limit of the start record. */
  predicate WouldExceed(written: seq<OutRecord>, limits: OutputLimits, wire: Wire, r: OutRecord) {
    var size := |wire.encode(r)| + 1;
    || (r.kind.Event? && (EventCount(written) >= limits.maxEvents || size > limits.maxEventBytes))
    || CallerBytes(wire, written) + size > limits.maxOutputBytes
  }

  /**
   * In every run that nothing has ended, an event that the session shows is written with the next number exactly when
   * the events and bytes written stay within the limits of the start record, the schema takes it and it fits a line.
   * Over a limit, the run ends with LIMIT_EXCEEDED; refused by the writer, with FAILED.
   */
  lemma ShownIff(w: Worker, wire: Wire, body: string, reason: string)
    requires Reachable(w, wire) && w.session && !Ending(w) && w.start.Some?
    ensures var r := OutRecord(Kind.Event, w.sequence + 1, body); var written := w.output.writer.written;
      var next := OnSessionEvent(w, wire, SessionEvent(None, Some(body), None), reason);
      && (Ending(next) <==> WouldExceed(written, w.start.value, wire, r) || !Writable(wire, r))
      && (!Ending(next) ==> next.output.writer.written == written + [r] && next.sequence == w.sequence + 1)
      && (Ending(next) ==>
           next.cause == Some(if WouldExceed(written, w.start.value, wire, r) then LIMIT_EXCEEDED else FAILED))
  {
    ReachableInv(w, wire);
    UnendedIsOpen(w, wire);
    ChargesAreExact(w, wire);
    var r := OutRecord(Kind.Event, w.sequence + 1, body);
    EmissionFails(w.output, wire, r);
    RecordEnds(w.(sequence := w.sequence + 1), wire, r, reason);
  }

  /** A tool call in the same state: its request is written exactly when it stays within them. */
  lemma RequestedIff(w: Worker, wire: Wire, call: ToolCall, reason: string)
    requires Reachable(w, wire) && !Ending(w) && w.start.Some?
    requires |Executed(w.broker, wire.hash, call).emitted| > |w.broker.emitted|
    ensures var after := Executed(w.broker, wire.hash, call);
      var r := ToolRecord(after.emitted[|after.emitted| - 1]); var next := AfterBroker(w, wire, after, reason);
      && (Ending(next) <==> WouldExceed(w.output.writer.written, w.start.value, wire, r) || !Writable(wire, r))
      && (!Ending(next) ==> next.output.writer.written == w.output.writer.written + [r])
  {
    BrokerOfferedIff(w, wire, Executed(w.broker, wire.hash, call), reason);
  }

  lemma BrokerOfferedIff(w: Worker, wire: Wire, after: ToolBroker.Broker, reason: string)
    requires Reachable(w, wire) && !Ending(w) && w.start.Some? && |after.emitted| > |w.broker.emitted|
    ensures var r := ToolRecord(after.emitted[|after.emitted| - 1]); var next := AfterBroker(w, wire, after, reason);
      && (Ending(next) <==> WouldExceed(w.output.writer.written, w.start.value, wire, r) || !Writable(wire, r))
      && (!Ending(next) ==> next.output.writer.written == w.output.writer.written + [r])
  {
    ReachableInv(w, wire);
    UnendedIsOpen(w, wire);
    ChargesAreExact(w, wire);
    OfferedIff(w.(broker := after), wire, ToolRecord(after.emitted[|after.emitted| - 1]), reason);
  }

  lemma OfferedIff(w: Worker, wire: Wire, r: OutRecord, reason: string)
    requires Exact(w.output, wire) && Open(w.output) && !Ending(w) && w.cause.None? && w.start.Some?
    requires w.output.limits == w.start.value && IsCaller(r)
    ensures var next := EmitRecord(w, wire, r, reason);
      && (Ending(next) <==> WouldExceed(w.output.writer.written, w.start.value, wire, r) || !Writable(wire, r))
      && (!Ending(next) ==> next.output.writer.written == w.output.writer.written + [r])
  {
    EmissionFails(w.output, wire, r);
    RecordEnds(w, wire, r, reason);
  }
}
