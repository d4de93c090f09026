/** What an agent worker writes once its run is ending, and how it ends (apps/agent-runtime/src/agent-worker.ts). */
module WorkerEnding {
  import opened Wrappers
  import opened Output
  import opened AgentWorkerModel
  import opened WorkerGuarantees
  import ToolBroker

  // ---------------------------------------------------------------- while it is ending

  /** `after` is `before` and further tool records, or a terminal one. */
  ghost predicate AddsOnlyTools(before: seq<OutRecord>, after: seq<OutRecord>) {
    before <= after && forall i | |before| <= i < |after| :: after[i].kind.Tool? || after[i].kind.Terminal?
  }

  lemma AddsOne(before: seq<OutRecord>, r: OutRecord)
    requires r.kind.Tool? || r.kind.Terminal?
    ensures AddsOnlyTools(before, before + [r]) && AddsOnlyTools(before, before)
  {}

  lemma AddsTwice(a: seq<OutRecord>, b: seq<OutRecord>, c: seq<OutRecord>)
    requires AddsOnlyTools(a, b) && AddsOnlyTools(b, c)
    ensures AddsOnlyTools(a, c)
  {
    forall i | |a| <= i < |c| ensures c[i].kind.Tool? || c[i].kind.Terminal? {
      if i < |b| {
        assert c[i] == b[i];
      }
    }
  }

  lemma FinishAdds(w: Worker, wire: Wire, state: TerminalState, reason: string, report: string)
    requires !w.finalizing
    ensures AddsOnlyTools(w.output.writer.written, Finish(w, wire, state, reason, report).output.writer.written)
  {
    var marked := w.(finalizing := true, cause := Caused(w, state));
    var stopped := CancelTools(marked, wire, reason);
    if w.start.Some? {
      QuietAppends(w.output, wire, Cancellations(w.broker, reason));
    }
    assert AddsOnlyTools(w.output.writer.written, stopped.writer.written);
    var r := OutRecord(Terminal(state), 0, report);
    var end := EmitTerminal(stopped, wire, r).0;
    AddsOne(stopped.writer.written, r);
    AddsTwice(w.output.writer.written, stopped.writer.written, end.writer.written);
  }

  lemma BrokerAdds(w: Worker, wire: Wire, after: ToolBroker.Broker, reason: string)
    requires Ending(w)
    ensures AddsOnlyTools(w.output.writer.written, AfterBroker(w, wire, after, reason).output.writer.written)
  {
    if |after.emitted| > |w.broker.emitted| {
      var r := ToolRecord(after.emitted[|after.emitted| - 1]);
      EmitWrites(w.output, wire, r);
      AddsOne(w.output.writer.written, r);
    }
  }

  lemma EndingStepAdds(w: Worker, wire: Wire, e: Entry)
    requires WorkerInv(w, wire) && Ending(w) && Enabled(w, e.step)
    ensures AddsOnlyTools(w.output.writer.written,
      Apply(w, wire, e.step, e.reason, e.report).output.writer.written)
  {
    match e.step
    case AbortDone =>
      FinishAdds(w.(terminating := false, aborting := None), wire, w.aborting.value, w.abortReason, e.report);
    case ToolExecutes(call) => BrokerAdds(w, wire, Executed(w.broker, wire.hash, call), e.reason);
    case ToolAborts(requestId) => BrokerAdds(w, wire, ToolBroker.Abort(w.broker, requestId), e.reason);
    case _ =>
  }

  /**
   * Over every run, once something has ended it, no event, usage or session message is written any more: only tool
   * records and the terminal one. Nothing is handed to the session or taken in, either.
   */
  lemma {:induction false} OnlyToolsWhileEnding(w: Worker, wire: Wire, entries: seq<Entry>)
    requires WorkerInv(w, wire) && Ending(w) && CanRun(w, wire, entries)
    ensures AddsOnlyTools(w.output.writer.written, Run(w, wire, entries).output.writer.written)
    ensures Run(w, wire, entries).delivered == w.delivered && Run(w, wire, entries).accepted == w.accepted
    decreases |entries|
  {
    if entries != [] {
      var e := entries[0];
      var next := Apply(w, wire, e.step, e.reason, e.report);
      ApplyKeeps(w, wire, e.step, e.reason, e.report);
      CauseStays(w, wire, e);
      EndingStepAdds(w, wire, e);
      EndingDelivers(w, wire, e);
      OnlyToolsWhileEnding(next, wire, entries[1..]);
      AddsTwice(w.output.writer.written, next.output.writer.written,
        Run(w, wire, entries).output.writer.written);
    }
  }

  lemma EndingDelivers(w: Worker, wire: Wire, e: Entry)
    requires Ending(w) && Enabled(w, e.step)
    ensures var next := Apply(w, wire, e.step, e.reason, e.report);
      next.delivered == w.delivered && next.accepted == w.accepted
  {
    match e.step
    case ToolExecutes(call) => BrokerDelivers(w, wire, Executed(w.broker, wire.hash, call), e.reason);
    case ToolAborts(requestId) => BrokerDelivers(w, wire, ToolBroker.Abort(w.broker, requestId), e.reason);
    case _ =>
  }

  lemma BrokerDelivers(w: Worker, wire: Wire, after: ToolBroker.Broker, reason: string)
    ensures var next := AfterBroker(w, wire, after, reason);
      next.delivered == w.delivered && next.accepted == w.accepted
  {}

  // ---------------------------------------------------------------- the reason of the end

  /** A step that starts the end keeps its reason for the calls that come while the session aborts. */
  predicate KeepsReason(w: Worker, next: Worker, reason: string) {
    next.terminating ==> next.abortReason == if w.terminating then w.abortReason else reason
  }

  lemma RecordKeepsReason(w: Worker, wire: Wire, r: OutRecord, reason: string)
    requires !w.finalizing
    ensures KeepsReason(w, EmitRecord(w, wire, r, reason), reason) && !EmitRecord(w, wire, r, reason).finalizing
    ensures w.terminating ==> EmitRecord(w, wire, r, reason).terminating
  {}

  lemma NumberedKeepsReason(w: Worker, wire: Wire, kind: Kind, body: string, reason: string, next: Worker)
    requires !w.finalizing && next == Numbered(w, wire, kind, body, reason)
    ensures KeepsReason(w, next, reason) && !next.finalizing && (w.terminating ==> next.terminating)
  {
    RecordKeepsReason(w.(sequence := w.sequence + 1), wire, OutRecord(kind, w.sequence + 1, body), reason);
  }

  lemma EventKeepsReason(w: Worker, wire: Wire, e: SessionEvent, reason: string)
    requires !w.finalizing
    ensures KeepsReason(w, OnSessionEvent(w, wire, e, reason), reason)
  {
    if w.start.Some? && w.session && !Ending(w) {
      var stored := if e.message.Some? then EmitSessionMessage(w, wire, e.message.value) else w;
      var shown := Reported(w, wire, e, reason);
      if e.projected.Some? {
        NumberedKeepsReason(stored, wire, Kind.Event, e.projected.value, reason, shown);
      }
      if e.usage.Some? {
        NumberedKeepsReason(shown, wire, Usage, e.usage.value, reason, OnSessionEvent(w, wire, e, reason));
      }
    }
  }

  lemma BrokerKeepsReason(w: Worker, wire: Wire, after: ToolBroker.Broker, reason: string)
    requires !w.finalizing
    ensures KeepsReason(w, AfterBroker(w, wire, after, reason), reason)
  {
    if |after.emitted| > |w.broker.emitted| {
      RecordKeepsReason(w.(broker := after), wire, ToolRecord(after.emitted[|after.emitted| - 1]), reason);
    }
  }

  lemma InputKeepsReason(w: Worker, wire: Wire, input: Input, reason: string, report: string)
    requires WorkerInv(w, wire) && !w.finalizing
    ensures KeepsReason(w, Receive(w, wire, input, reason, report).0, reason)
  {}

  lemma StepKeepsReason(w: Worker, wire: Wire, e: Entry)
    requires WorkerInv(w, wire) && !w.finalizing && Enabled(w, e.step)
    ensures KeepsReason(w, Apply(w, wire, e.step, e.reason, e.report), e.reason)
  {
    match e.step
    case Inbound(input) => InputKeepsReason(w, wire, input, e.reason, e.report);
    case FactorySettled(Some(repairs), _) =>
      MessagesEndNothing(w.(session := true, run := Prompting, sessionSeq := w.historyLength), wire, repairs);
      StoredKeepReason(w.(session := true, run := Prompting, sessionSeq := w.historyLength), wire, repairs);
    case Happened(event) => EventKeepsReason(w, wire, event, e.reason);
    case ToolExecutes(call) => BrokerKeepsReason(w, wire, Executed(w.broker, wire.hash, call), e.reason);
    case ToolAborts(requestId) => BrokerKeepsReason(w, wire, ToolBroker.Abort(w.broker, requestId), e.reason);
    case _ =>
  }

  lemma {:induction false} StoredKeepReason(w: Worker, wire: Wire, bodies: seq<string>)
    ensures EmitSessionMessages(w, wire, bodies).abortReason == w.abortReason
    decreases |bodies|
  {
    if bodies != [] {
      StoredKeepReason(EmitSessionMessage(w, wire, bodies[0]), wire, bodies[1..]);
    }
  }

  lemma {:induction false} RunKeepsReason(w: Worker, wire: Wire, entries: seq<Entry>)
    requires WorkerInv(w, wire) && w.terminating && CanRun(w, wire, entries)
    ensures var end := Run(w, wire, entries);
      end.finalizing || (end.terminating && end.abortReason == w.abortReason)
    decreases |entries|
  {
    if entries != [] {
      var e := entries[0];
      var next := Apply(w, wire, e.step, e.reason, e.report);
      ApplyKeeps(w, wire, e.step, e.reason, e.report);
      CauseStays(w, wire, e);
      StepKeepsReason(w, wire, e);
      if next.finalizing {
        FinalStays(next, wire, entries[1..]);
      } else {
        RunKeepsReason(next, wire, entries[1..]);
      }
    }
  }

  lemma {:induction false} FinalStays(w: Worker, wire: Wire, entries: seq<Entry>)
    requires WorkerInv(w, wire) && w.finalizing && CanRun(w, wire, entries)
    ensures Run(w, wire, entries).finalizing
    decreases |entries|
  {
    if entries != [] {
      var e := entries[0];
      ApplyKeeps(w, wire, e.step, e.reason, e.report);
      FinalStep(w, wire, e);
      FinalStays(Apply(w, wire, e.step, e.reason, e.report), wire, entries[1..]);
    }
  }

  lemma FinalStep(w: Worker, wire: Wire, e: Entry)
    requires WorkerInv(w, wire) && w.finalizing && Enabled(w, e.step)
    ensures Apply(w, wire, e.step, e.reason, e.report).finalizing
  {
    match e.step
    case ToolExecutes(call) => EndedBroker(w, wire, Executed(w.broker, wire.hash, call), e.reason);
    case ToolAborts(requestId) => EndedBroker(w, wire, ToolBroker.Abort(w.broker, requestId), e.reason);
    case _ =>
  }

  /**
   * Calls made while the session aborts are cancelled too, when it has: over every run from the step that started the
   * end, what is in flight then is cancelled with the reason of that step, as far as there is room, and nothing stays
   * in flight.
   */
  lemma LateCallsAreCancelled(w: Worker, wire: Wire, e: Entry, entries: seq<Entry>, report: string)
    requires Reachable(w, wire) && !Ending(w) && Enabled(w, e.step)
    requires var next := Apply(w, wire, e.step, e.reason, e.report);
      next.terminating && CanRun(next, wire, entries) && Run(next, wire, entries).terminating
    ensures var last := Run(Apply(w, wire, e.step, e.reason, e.report), wire, entries);
      && Enabled(last, AbortDone)
      && (last.start.Some? ==> CancelsLate(last, wire, Apply(last, wire, AbortDone, "", report), e.reason))
  {
    ReachableInv(w, wire);
    var next := Apply(w, wire, e.step, e.reason, e.report);
    ApplyKeeps(w, wire, e.step, e.reason, e.report);
    StepKeepsReason(w, wire, e);
    RunKeepsReason(next, wire, entries);
    RunKeeps(next, wire, entries);
    var last := Run(next, wire, entries);
    if last.start.Some? {
      FinishCancelsLate(last, wire, e.reason, report, Apply(last, wire, AbortDone, "", report));
    }
  }

  /** What was in flight is not any more, and if there is room, a cancellation of each, in order, is written first. */
  ghost predicate CancelsLate(w: Worker, wire: Wire, end: Worker, reason: string) {
    var cancels := seq(|w.broker.pending|, i requires 0 <= i < |w.broker.pending| =>
      ToolRecord(ToolBroker.ToolCancel(w.broker.pending[i].requestId, reason)));
    && end.finalizing && end.broker.pending == []
    && ((forall r | r in cancels :: Writable(wire, r))
        && w.output.outputBytes + TotalSize(wire, cancels) <= w.output.limits.maxOutputBytes
       ==> w.output.writer.written + cancels <= end.output.writer.written)
  }

  lemma FinishCancelsLate(w: Worker, wire: Wire, reason: string, report: string, end: Worker)
    requires WorkerInv(w, wire) && w.terminating && w.start.Some? && w.abortReason == reason
    requires end == AbortSettled(w, wire, report)
    ensures CancelsLate(w, wire, end, reason)
  {
    UnendedIsOpen(w, wire);
    NothingPendingAfter(w.broker, reason);
    var cancels := Cancellations(w.broker, reason);
    var stopped := EmitQuietly(w.output, wire, cancels);
    var r := OutRecord(Terminal(w.aborting.value), 0, report);
    assert end.output == EmitTerminal(stopped, wire, r).0;
    assert stopped.writer.written <= end.output.writer.written;
    if (forall r | r in cancels :: Writable(wire, r))
      && w.output.outputBytes + TotalSize(wire, cancels) <= w.output.limits.maxOutputBytes {
      CancelsWithRoom(w.output, wire, cancels);
    }
  }

  // ---------------------------------------------------------------- the terminal record

  lemma FinishWrites(w: Worker, wire: Wire, state: TerminalState, reason: string, report: string)
    requires !w.finalizing && !w.output.terminal && !w.output.writer.closed && !w.output.writer.terminalWritten
    ensures var r := OutRecord(Terminal(state), 0, report);
      var end := Finish(w, wire, state, reason, report).output;
      Writable(wire, r) ==> end.writer.written != [] && end.writer.written[|end.writer.written| - 1] == r
  {
    if w.start.Some? {
      QuietOpen(w.output, wire, Cancellations(w.broker, reason));
    }
  }

  lemma {:induction false} QuietOpen(o: OutputState, wire: Wire, cancels: seq<OutRecord>)
    requires Open(o) && AreCancels(cancels)
    ensures Open(EmitQuietly(o, wire, cancels))
    decreases |cancels|
  {
    if cancels != [] {
      QuietOpen(Emit(o, wire, cancels[0]).0, wire, cancels[1..]);
    }
  }

  lemma RunEndsWrites(w: Worker, wire: Wire, state: TerminalState, reason: string, report: string)
    requires !Ending(w) && Open(w.output)
    ensures var next := RunEnds(w, wire, state, reason, report);
      next.finalizing && next.cause == Caused(w, state) && TellsEnd(next, wire, state, report)
  {
    FinishWrites(w.(run := Over), wire, state, reason, report);
  }

  /** The terminal record with this state and report is the last, if the schema takes it and it fits a line. */
  predicate TellsEnd(w: Worker, wire: Wire, state: TerminalState, report: string) {
    var r, written := OutRecord(Terminal(state), 0, report), w.output.writer.written;
    Writable(wire, r) ==> written != [] && written[|written| - 1] == r
  }

  ghost predicate Told(next: Worker, wire: Wire, report: string) {
    next.finalizing ==> next.cause.Some? && TellsEnd(next, wire, next.cause.value, report)
  }

  lemma RunEndTells(w: Worker, wire: Wire, state: TerminalState, reason: string, report: string, next: Worker)
    requires WorkerInv(w, wire) && !w.finalizing && next == RunEnds(w, wire, state, reason, report)
    ensures Told(next, wire, report)
  {
    UnendedIsOpen(w, wire);
    if !Ending(w) {
      RunEndsWrites(w, wire, state, reason, report);
    }
  }

  /** The other steps do not finish a run. */
  lemma OthersGoOn(w: Worker, wire: Wire, e: Entry)
    requires !w.finalizing && Enabled(w, e.step) && !e.step.Inbound? && !e.step.AbortDone? && !e.step.PromptSettled?
    requires !e.step.IdleSettled? && (e.step.FactorySettled? ==> e.step.repairs.Some?)
    ensures !Apply(w, wire, e.step, e.reason, e.report).finalizing
  {
    if e.step.FactorySettled? {
      MessagesEndNothing(w.(session := true, run := Prompting, sessionSeq := w.historyLength), wire,
        e.step.repairs.value);
    }
  }

  /** Whichever step finishes a run, the last record written is the terminal one, with the cause of the end. */
  lemma FinishingTellsEnd(w: Worker, wire: Wire, e: Entry)
    requires Reachable(w, wire) && !w.finalizing && Enabled(w, e.step)
    requires Apply(w, wire, e.step, e.reason, e.report).finalizing
    ensures var next := Apply(w, wire, e.step, e.reason, e.report);
      next.cause.Some? && TellsEnd(next, wire, next.cause.value, e.report)
  {
    ReachableInv(w, wire);
    var next := Apply(w, wire, e.step, e.reason, e.report);
    match e.step
    case AbortDone => AbortTells(w, wire, e.report, next);
    case Inbound(input) => InputTellsEnd(w, wire, input, e.reason, e.report);
    case FactorySettled(None, limitError) =>
      RunEndTells(w, wire, CaughtState(w, limitError), e.reason, e.report, next);
    case PromptSettled(false, limitError) =>
      RunEndTells(w, wire, CaughtState(w, limitError), e.reason, e.report, next);
    case PromptSettled(true, _) =>
    case IdleSettled(ok, limitError, failure) =>
      RunEndTells(w, wire, if ok then GetOr(failure, SUCCEEDED) else CaughtState(w, limitError), e.reason, e.report,
        next);
    case _ => OthersGoOn(w, wire, e);
  }

  lemma AbortTells(w: Worker, wire: Wire, report: string, next: Worker)
    requires Reachable(w, wire) && !w.finalizing && w.aborting.Some? && next == AbortSettled(w, wire, report)
    ensures next.cause.Some? && TellsEnd(next, wire, next.cause.value, report)
  {
    ReachableInv(w, wire);
    EndedFinishes(w, wire, report);
    EndingFinishes(w, wire, report);
  }

  lemma InputTellsEnd(w: Worker, wire: Wire, input: Input, reason: string, report: string)
    requires WorkerInv(w, wire) && !w.finalizing && Receive(w, wire, input, reason, report).0.finalizing
    ensures var next := Receive(w, wire, input, reason, report).0;
      next.cause.Some? && TellsEnd(next, wire, next.cause.value, report)
  {
    UnendedIsOpen(w, wire);
    if input.StartInput? && w.start.None? && !Ending(w) {
      var begun := w.(start := Some(input.limits), output := Configure(w.output, input.limits),
        historyLength := input.history, run := CreatingSession);
      RunEndsWrites(begun, wire, CaughtState(begun, input.limitError), reason, report);
    }
  }

  // ---------------------------------------------------------------- what is refused, and what is never written

  /** An input that comes after the end, before the start, or as a second start is refused, and changes nothing. */
  lemma MisplacedIsRefused(w: Worker, wire: Wire, input: Input, reason: string, report: string)
    requires Reachable(w, wire)
    ensures var (next, error) := Receive(w, wire, input, reason, report);
      && (error == Some(AfterTerminalState) <==> Ending(w))
      && (error == Some(NotAStart) <==> !Ending(w) && w.start.None? && !input.StartInput?)
      && (error == Some(DuplicateStart) <==> !Ending(w) && w.start.Some? && input.StartInput?)
      && (error.Some? ==> next == w)
  {
    ReachableInv(w, wire);
  }

  /** Session messages are counted only for a start record with a history. */
  predicate CountsWithHistory(w: Worker) {
    w.sessionSeq.Some? ==> w.historyLength.Some?
  }

  lemma {:induction false} StoredCounts(w: Worker, wire: Wire, bodies: seq<string>)
    ensures var next := EmitSessionMessages(w, wire, bodies);
      next.historyLength == w.historyLength && (next.sessionSeq.Some? <==> w.sessionSeq.Some?)
    decreases |bodies|
  {
    if bodies != [] {
      StoredCounts(EmitSessionMessage(w, wire, bodies[0]), wire, bodies[1..]);
    }
  }

  lemma EventCounts(w: Worker, wire: Wire, e: SessionEvent, reason: string)
    ensures var next := OnSessionEvent(w, wire, e, reason);
      next.historyLength == w.historyLength && (next.sessionSeq.Some? <==> w.sessionSeq.Some?)
  {
    if w.start.Some? && w.session && !Ending(w) {
      var stored := if e.message.Some? then EmitSessionMessage(w, wire, e.message.value) else w;
      var shown := Reported(w, wire, e, reason);
      if e.projected.Some? {
        NumberedCounts(stored, wire, Kind.Event, e.projected.value, reason, shown);
      }
      if e.usage.Some? {
        NumberedCounts(shown, wire, Usage, e.usage.value, reason, OnSessionEvent(w, wire, e, reason));
      }
    }
  }

  lemma NumberedCounts(w: Worker, wire: Wire, kind: Kind, body: string, reason: string, next: Worker)
    requires next == Numbered(w, wire, kind, body, reason)
    ensures next.historyLength == w.historyLength && next.sessionSeq == w.sessionSeq
  {}

  lemma BrokerCounts(w: Worker, wire: Wire, after: ToolBroker.Broker, reason: string)
    ensures var next := AfterBroker(w, wire, after, reason);
      next.historyLength == w.historyLength && next.sessionSeq == w.sessionSeq
  {}

  lemma StepCounts(w: Worker, wire: Wire, e: Entry)
    requires CountsWithHistory(w) && WorkerInv(w, wire) && Enabled(w, e.step)
    ensures CountsWithHistory(Apply(w, wire, e.step, e.reason, e.report))
  {
    match e.step
    case FactorySettled(Some(repairs), _) =>
      StoredCounts(w.(session := true, run := Prompting, sessionSeq := w.historyLength), wire, repairs);
    case Happened(event) => EventCounts(w, wire, event, e.reason);
    case ToolExecutes(call) => BrokerCounts(w, wire, Executed(w.broker, wire.hash, call), e.reason);
    case ToolAborts(requestId) => BrokerCounts(w, wire, ToolBroker.Abort(w.broker, requestId), e.reason);
    case _ =>
  }

  lemma {:induction false} RunCounts(w: Worker, wire: Wire, entries: seq<Entry>)
    requires CountsWithHistory(w) && WorkerInv(w, wire) && CanRun(w, wire, entries)
    ensures CountsWithHistory(Run(w, wire, entries))
    decreases |entries|
  {
    if entries != [] {
      var e := entries[0];
      StepCounts(w, wire, e);
      ApplyKeeps(w, wire, e.step, e.reason, e.report);
      RunCounts(Apply(w, wire, e.step, e.reason, e.report), wire, entries[1..]);
    }
  }

  /** Over every run without a history in the start record, no session message is written. */
  lemma NoHistoryNoMessages(w: Worker, wire: Wire, r: OutRecord)
    requires Reachable(w, wire) && w.historyLength.None? && r in w.output.writer.written
    ensures !r.kind.SessionMessage?
  {
    var entries :| CanRun(InitialWorker(), wire, entries) && w == Run(InitialWorker(), wire, entries);
    InitialInv(wire);
    RunCounts(InitialWorker(), wire, entries);
    ReachableInv(w, wire);
    var i :| 0 <= i < |w.output.writer.written| && w.output.writer.written[i] == r;
  }
}
