/** What holds of an agent worker in every run (apps/agent-runtime/src/agent-worker.ts). */
module WorkerGuarantees {
  import opened Wrappers
  import opened Jsonl
  import opened JsonlGuarantees
  import opened Output
  import opened AgentWorkerModel
  import ToolBroker

  /** Every worker that a run can reach. */
  ghost predicate Reachable(w: Worker, wire: Wire) {
    exists entries | CanRun(InitialWorker(), wire, entries) :: w == Run(InitialWorker(), wire, entries)
  }

  lemma ReachableInv(w: Worker, wire: Wire)
    requires Reachable(w, wire)
    ensures WorkerInv(w, wire)
  {
    var entries :| CanRun(InitialWorker(), wire, entries) && w == Run(InitialWorker(), wire, entries);
    InitialInv(wire);
    RunKeeps(InitialWorker(), wire, entries);
  }

  // ---------------------------------------------------------------- main results

  /** At most one terminal record is written, nothing follows it, and it states the first accepted cause. */
  lemma OneTerminal(w: Worker, wire: Wire, i: nat)
    requires Reachable(w, wire) && i < |w.output.writer.written| && w.output.writer.written[i].kind.Terminal?
    ensures i == |w.output.writer.written| - 1 && w.finalizing && w.cause == Some(w.output.writer.written[i].kind.state)
  {
    ReachableInv(w, wire);
    assert CodecOf(wire).terminal(w.output.writer.written[i]);
    assert w.output.writer.written[i] in w.output.writer.written;
  }

  /** Written caller records are within the budgets of the start record, and there are none without one. */
  lemma BudgetsHold(w: Worker, wire: Wire)
    requires Reachable(w, wire)
    ensures w.start.Some? ==> WithinLimits(w.output.writer.written, wire, w.start.value)
    ensures w.start.None?
      ==> EventCount(w.output.writer.written) == 0 && CallerBytes(wire, w.output.writer.written) == 0
  {
    ReachableInv(w, wire);
  }

  ghost predicate WithinLimits(written: seq<OutRecord>, wire: Wire, limits: OutputLimits) {
    && EventCount(written) <= limits.maxEvents
    && CallerBytes(wire, written) <= limits.maxOutputBytes
    && forall r | r in written && r.kind.Event? :: Size(wire, r) <= limits.maxEventBytes
  }

  /** The limits and the history of the start record. */
  predicate SameStart(w: Worker, next: Worker) {
    next.start == w.start && next.historyLength == w.historyLength
  }

  /** The start record is accepted once, and over every run its limits and its history stay. */
  lemma {:induction false} StartStays(w: Worker, wire: Wire, entries: seq<Entry>)
    requires w.start.Some? && CanRun(w, wire, entries)
    ensures Run(w, wire, entries).start == w.start
    ensures Run(w, wire, entries).historyLength == w.historyLength
    decreases |entries|
  {
    if entries != [] {
      var e := entries[0];
      StartStaysInStep(w, wire, e);
      StartStays(Apply(w, wire, e.step, e.reason, e.report), wire, entries[1..]);
    }
  }

  lemma StartStaysInStep(w: Worker, wire: Wire, e: Entry)
    requires w.start.Some? && Enabled(w, e.step)
    ensures SameStart(w, Apply(w, wire, e.step, e.reason, e.report))
  {
    match e.step
    case FactorySettled(Some(repairs), _) =>
      MessagesKeepStart(w.(session := true, run := Prompting, sessionSeq := w.historyLength), wire, repairs);
    case Happened(event) => EventKeepsStart(w, wire, event, e.reason);
    case ToolExecutes(call) => BrokerKeepsStart(w, wire, Executed(w.broker, wire.hash, call), e.reason);
    case ToolAborts(requestId) => BrokerKeepsStart(w, wire, ToolBroker.Abort(w.broker, requestId), e.reason);
    case _ =>
  }

  lemma EventKeepsStart(w: Worker, wire: Wire, e: SessionEvent, reason: string)
    ensures SameStart(w, OnSessionEvent(w, wire, e, reason))
  {}

  lemma BrokerKeepsStart(w: Worker, wire: Wire, after: ToolBroker.Broker, reason: string)
    ensures SameStart(w, AfterBroker(w, wire, after, reason))
  {}

  lemma {:induction false} MessagesKeepStart(w: Worker, wire: Wire, bodies: seq<string>)
    ensures SameStart(w, EmitSessionMessages(w, wire, bodies))
    decreases |bodies|
  {
    if bodies != [] {
      MessagesKeepStart(EmitSessionMessage(w, wire, bodies[0]), wire, bodies[1..]);
    }
  }

  /** Starting never finds the output already charged, so its limits take effect. */
  lemma StartConfigures(w: Worker, wire: Wire, input: Input, reason: string, report: string)
    requires Reachable(w, wire) && input.StartInput? && Receive(w, wire, input, reason, report).1.None?
    ensures CanConfigure(w.output)
    ensures var next := Receive(w, wire, input, reason, report).0;
      next.start == Some(input.limits) && next.output.limits == input.limits && next.historyLength == input.history
  {
    ReachableInv(w, wire);
    ReceiveKeeps(w, wire, input, reason, report);
  }

  /** Event and usage numbers increase strictly, and session messages continue the history's numbering. */
  lemma NumbersIncrease(w: Worker, wire: Wire, i: nat, j: nat)
    requires Reachable(w, wire) && i < j < |w.output.writer.written|
    ensures var written := w.output.writer.written;
      && (IsNumbered(written[i]) && IsNumbered(written[j]) ==> 0 < written[i].number < written[j].number <= w.sequence)
      && (written[i].kind.SessionMessage? && written[j].kind.SessionMessage? ==>
        GetOr(w.historyLength, 0) <= written[i].number < written[j].number)
  {
    ReachableInv(w, wire);
  }

  /** Accepted messages reach the session once each and in order; none waits once the session is there. */
  lemma MessagesDelivered(w: Worker, wire: Wire)
    requires Reachable(w, wire)
    ensures w.accepted == w.delivered + w.pendingMessages
    ensures w.session ==> w.delivered == w.accepted
    ensures |w.pendingMessages| <= MAX_PENDING_MESSAGES && MessageBytes(w.pendingMessages) <= MAX_PENDING_BYTES
  {
    ReachableInv(w, wire);
  }

  // ---------------------------------------------------------------- the first cause

  predicate Writable(wire: Wire, r: OutRecord) {
    wire.valid(r) && Size(wire, r) <= wire.maxRecordBytes
  }

  /** What an emission that goes over a limit, or that the writer refuses, ends the run with. */
  function EmissionFailure(o: OutputState, wire: Wire, r: OutRecord): Option<TerminalState> {
    if OverLimit(o, wire, r) then Some(LIMIT_EXCEEDED)
    else if !Writable(wire, r) then Some(FAILED)
    else None
  }

  function EventTrigger(w: Worker, wire: Wire, e: SessionEvent): Option<TerminalState> {
    var shown := OutRecord(Kind.Event, w.sequence + 1, GetOr(e.projected, ""));
    var failure := if e.projected.Some? then EmissionFailure(w.output, wire, shown) else None;
    if failure.Some? || e.usage.None? then failure
    else if e.projected.Some? then
      EmissionFailure(Charge(w.output, wire, shown), wire, OutRecord(Usage, w.sequence + 2, e.usage.value))
    else EmissionFailure(w.output, wire, OutRecord(Usage, w.sequence + 1, e.usage.value))
  }

  function BrokerTrigger(w: Worker, wire: Wire, after: ToolBroker.Broker): Option<TerminalState> {
    if |after.emitted| > |w.broker.emitted| then
      EmissionFailure(w.output, wire, ToolRecord(after.emitted[|after.emitted| - 1]))
    else None
  }

  /** The state a step ends a run with that nothing has ended yet, if it does. */
  function Trigger(w: Worker, wire: Wire, s: Step): Option<TerminalState> {
    match s
    case Inbound(CancelInput) => if w.start.Some? then Some(CANCELLED) else None
    case Inbound(ToolResultInput(requestId, true, _, _)) =>
      if w.start.Some? && ToolBroker.IsPending(w.broker, requestId) then Some(LIMIT_EXCEEDED) else None
    case Inbound(StartInput(_, _, true, limitError)) =>
      if w.start.Some? then None else Some(if limitError then LIMIT_EXCEEDED else FAILED)
    case Interrupted => Some(INTERRUPTED)
    case WriteFailed => Some(INTERRUPTED)
    case DeadlinePassed => Some(TIMED_OUT)
    case DeliveryFailed => Some(FAILED)
    case FactorySettled(None, limitError) => Some(if limitError then LIMIT_EXCEEDED else FAILED)
    case PromptSettled(false, limitError) => Some(if limitError then LIMIT_EXCEEDED else FAILED)
    case IdleSettled(false, limitError, _) => Some(if limitError then LIMIT_EXCEEDED else FAILED)
    case IdleSettled(true, _, failure) => Some(GetOr(failure, SUCCEEDED))
    case Happened(event) => EventTrigger(w, wire, event)
    case ToolExecutes(call) => BrokerTrigger(w, wire, Executed(w.broker, wire.hash, call))
    case ToolAborts(requestId) => BrokerTrigger(w, wire, ToolBroker.Abort(w.broker, requestId))
    case _ => None
  }

  /** The writer takes records, and has not had a terminal one. */
  predicate Open(o: OutputState) {
    !o.terminal && !o.writer.closed && !o.writer.terminalWritten
  }

  lemma UnendedIsOpen(w: Worker, wire: Wire)
    requires WorkerInv(w, wire) && !w.finalizing
    ensures Open(w.output)
  {}

  predicate SameCharge(o: OutputState, p: OutputState) {
    o.events == p.events && o.outputBytes == p.outputBytes && o.limits == p.limits
  }

  /** An emission fails exactly so. */
  lemma EmissionFails(o: OutputState, wire: Wire, r: OutRecord)
    requires Open(o) && !r.kind.Terminal?
    ensures var (next, error) := Emit(o, wire, r); var failure := EmissionFailure(o, wire, r);
      && (error.Some? <==> failure.Some?) && (error.Some? ==> ErrorState(error.value) == failure.value)
      && (error.None? ==>
           Open(next) && next.writer.written == o.writer.written + [r] && SameCharge(next, Charge(o, wire, r)))
  {}

  predicate Ends(w: Worker, next: Worker, trigger: Option<TerminalState>) {
    && (Ending(next) <==> trigger.Some?)
    && (trigger.Some? ==> next.cause == trigger)
  }

  lemma RecordEnds(w: Worker, wire: Wire, r: OutRecord, reason: string)
    requires Open(w.output) && !Ending(w) && w.cause.None? && !r.kind.Terminal?
    ensures Ends(w, EmitRecord(w, wire, r, reason), EmissionFailure(w.output, wire, r))
    ensures var next := EmitRecord(w, wire, r, reason);
      !Ending(next) ==> next == w.(output := Emit(w.output, wire, r).0)
  {
    EmissionFails(w.output, wire, r);
  }

  lemma NumberedEnds(w: Worker, wire: Wire, kind: Kind, body: string, reason: string)
    requires Open(w.output) && !Ending(w) && w.cause.None? && (kind.Event? || kind.Usage?)
    ensures var r := OutRecord(kind, w.sequence + 1, body); var next := Numbered(w, wire, kind, body, reason);
      && Ends(w, next, EmissionFailure(w.output, wire, r))
      && (!Ending(next) ==> next == w.(sequence := w.sequence + 1, output := Emit(w.output, wire, r).0))
  {
    RecordEnds(w.(sequence := w.sequence + 1), wire, OutRecord(kind, w.sequence + 1, body), reason);
  }

  /** Storing a session message charges nothing. */
  lemma StoringIsFree(o: OutputState, wire: Wire, r: OutRecord)
    requires Open(o) && r.kind.SessionMessage?
    ensures var next := EmitSession(o, wire, r);
      Open(next) && SameCharge(next, o)
  {}

  lemma SameFailure(o: OutputState, p: OutputState, wire: Wire, r: OutRecord)
    requires SameCharge(o, p)
    ensures EmissionFailure(p, wire, r) == EmissionFailure(o, wire, r)
  {}

  /** What the event shows has been reported, charged as in `after`, and ended nothing. */
  predicate HasShown(w: Worker, next: Worker, e: SessionEvent, after: OutputState) {
    && Open(next.output) && next.cause.None? && SameCharge(next.output, after)
    && next.sequence == w.sequence + (if e.projected.Some? then 1 else 0)
  }

  lemma ShownEnds(w: Worker, wire: Wire, e: SessionEvent, reason: string)
    requires Open(w.output) && !Ending(w) && w.cause.None?
    ensures var shown := OutRecord(Kind.Event, w.sequence + 1, GetOr(e.projected, ""));
      var next := Reported(w, wire, e, reason);
      var after := if e.projected.Some? then Charge(w.output, wire, shown) else w.output;
      && Ends(w, next, if e.projected.Some? then EmissionFailure(w.output, wire, shown) else None)
      && (!Ending(next) ==> HasShown(w, next, e, after))
  {
    var stored := if e.message.Some? then EmitSessionMessage(w, wire, e.message.value) else w;
    if e.message.Some? && w.sessionSeq.Some? {
      StoringIsFree(w.output, wire, OutRecord(SessionMessage, w.sessionSeq.value, e.message.value));
    }
    if e.projected.Some? {
      var shown := OutRecord(Kind.Event, w.sequence + 1, e.projected.value);
      SameFailure(w.output, stored.output, wire, shown);
      NumberedEnds(stored, wire, Kind.Event, e.projected.value, reason);
      EmissionFails(stored.output, wire, shown);
    }
  }

  lemma EventEnds(w: Worker, wire: Wire, e: SessionEvent, reason: string)
    requires Open(w.output) && !Ending(w) && w.cause.None? && w.start.Some? && w.session
    ensures Ends(w, OnSessionEvent(w, wire, e, reason), EventTrigger(w, wire, e))
  {
    ShownEnds(w, wire, e, reason);
    var reported := Reported(w, wire, e, reason);
    if e.usage.Some? {
      UsageEnds(w, wire, e, reported, reason);
    }
  }

  lemma UsageEnds(w: Worker, wire: Wire, e: SessionEvent, reported: Worker, reason: string)
    requires e.usage.Some?
    requires var shown := OutRecord(Kind.Event, w.sequence + 1, GetOr(e.projected, ""));
      var after := if e.projected.Some? then Charge(w.output, wire, shown) else w.output;
      && Ends(w, reported, if e.projected.Some? then EmissionFailure(w.output, wire, shown) else None)
      && (!Ending(reported) ==> HasShown(w, reported, e, after))
    ensures Ends(w, Numbered(reported, wire, Usage, e.usage.value, reason), EventTrigger(w, wire, e))
  {
    var r := OutRecord(Usage, reported.sequence + 1, e.usage.value);
    if Ending(reported) {
      CauseKept(reported, wire, r, reason);
    } else {
      var shown := OutRecord(Kind.Event, w.sequence + 1, GetOr(e.projected, ""));
      NumberedEnds(reported, wire, Usage, e.usage.value, reason);
      SameFailure(if e.projected.Some? then Charge(w.output, wire, shown) else w.output, reported.output, wire, r);
    }
  }

  lemma CauseKept(w: Worker, wire: Wire, r: OutRecord, reason: string)
    requires Ending(w)
    ensures var next := EmitRecord(w.(sequence := w.sequence + 1), wire, r, reason);
      Ending(next) && next.cause == w.cause
  {}

  lemma BrokerEnds(w: Worker, wire: Wire, after: ToolBroker.Broker, reason: string)
    requires Open(w.output) && !Ending(w) && w.cause.None?
    ensures Ends(w, AfterBroker(w, wire, after, reason), BrokerTrigger(w, wire, after))
  {
    if |after.emitted| > |w.broker.emitted| {
      RecordEnds(w.(broker := after), wire, ToolRecord(after.emitted[|after.emitted| - 1]), reason);
    }
  }

  lemma InputEnds(w: Worker, wire: Wire, input: Input, reason: string, report: string)
    requires WorkerInv(w, wire) && !Ending(w)
    ensures Ends(w, Receive(w, wire, input, reason, report).0, Trigger(w, wire, Inbound(input)))
  {}

  /**
   * A step ends a run that nothing has ended yet exactly when it is one of these reasons, emissions over a
   * limit or refused by the writer included, and then it is the cause.
   */
  lemma EndsIff(w: Worker, wire: Wire, e: Entry)
    requires WorkerInv(w, wire) && !Ending(w) && Enabled(w, e.step)
    ensures Ends(w, Apply(w, wire, e.step, e.reason, e.report), Trigger(w, wire, e.step))
  {
    UnendedIsOpen(w, wire);
    match e.step
    case Inbound(input) => InputEnds(w, wire, input, e.reason, e.report);
    case Happened(event) => EventEnds(w, wire, event, e.reason);
    case ToolExecutes(call) => BrokerEnds(w, wire, Executed(w.broker, wire.hash, call), e.reason);
    case ToolAborts(requestId) => BrokerEnds(w, wire, ToolBroker.Abort(w.broker, requestId), e.reason);
    case FactorySettled(repairs, limitError) =>
      if repairs.Some? {
        MessagesEndNothing(w.(session := true, run := Prompting, sessionSeq := w.historyLength), wire, repairs.value);
      }
    case _ =>
  }

  lemma {:induction false} MessagesEndNothing(w: Worker, wire: Wire, bodies: seq<string>)
    ensures var next := EmitSessionMessages(w, wire, bodies);
      next.terminating == w.terminating && next.finalizing == w.finalizing
    decreases |bodies|
  {
    if bodies != [] {
      MessagesEndNothing(EmitSessionMessage(w, wire, bodies[0]), wire, bodies[1..]);
    }
  }

  /** A reason that comes later is not. */
  lemma CauseStays(w: Worker, wire: Wire, e: Entry)
    requires WorkerInv(w, wire) && Ending(w) && Enabled(w, e.step)
    ensures var next := Apply(w, wire, e.step, e.reason, e.report); next.cause == w.cause && Ending(next)
  {
    match e.step
    case AbortDone => EndedFinishes(w, wire, e.report);
    case ToolExecutes(call) => EndedBroker(w, wire, Executed(w.broker, wire.hash, call), e.reason);
    case ToolAborts(requestId) => EndedBroker(w, wire, ToolBroker.Abort(w.broker, requestId), e.reason);
    case _ =>
  }

  lemma EndedFinishes(w: Worker, wire: Wire, report: string)
    requires Lifecycle(w) && w.aborting.Some?
    ensures var next := AbortSettled(w, wire, report); next.cause == w.cause && Ending(next)
  {}

  lemma EndedBroker(w: Worker, wire: Wire, after: ToolBroker.Broker, reason: string)
    requires Ending(w)
    ensures var next := AfterBroker(w, wire, after, reason);
      next.cause == w.cause && next.finalizing == w.finalizing && Ending(next)
        && (w.output.terminal ==> next.output == w.output)
  {}

  lemma {:induction false} CauseStaysOverRun(w: Worker, wire: Wire, entries: seq<Entry>)
    requires WorkerInv(w, wire) && Ending(w) && CanRun(w, wire, entries)
    ensures Run(w, wire, entries).cause == w.cause
    decreases |entries|
  {
    if entries != [] {
      var e := entries[0];
      ApplyKeeps(w, wire, e.step, e.reason, e.report);
      CauseStays(w, wire, e);
      CauseStaysOverRun(Apply(w, wire, e.step, e.reason, e.report), wire, entries[1..]);
    }
  }

  /**
   * The first step that is a reason ends the run, and whatever happens after it, a terminal record states that
   * reason.
   */
  lemma FirstCauseWins(w: Worker, wire: Wire, entries: seq<Entry>)
    requires Reachable(w, wire) && !Ending(w) && entries != [] && CanRun(w, wire, entries)
    ensures var e := entries[0]; var trigger, end := Trigger(w, wire, e.step), Run(w, wire, entries);
      && (Ending(Apply(w, wire, e.step, e.reason, e.report)) <==> trigger.Some?)
      && (trigger.Some? ==>
           end.cause == trigger
           && forall r | r in end.output.writer.written && r.kind.Terminal? :: Some(r.kind.state) == trigger)
  {
    ReachableInv(w, wire);
    var e := entries[0];
    ApplyKeeps(w, wire, e.step, e.reason, e.report);
    EndsIff(w, wire, e);
    if Trigger(w, wire, e.step).Some? {
      CauseStaysOverRun(Apply(w, wire, e.step, e.reason, e.report), wire, entries[1..]);
      RunKeeps(w, wire, entries);
    }
  }

  // ---------------------------------------------------------------- the end

  /** After the end nothing is written, whatever still settles or arrives. */
  lemma FinishedIsSilent(w: Worker, wire: Wire, e: Entry)
    requires WorkerInv(w, wire) && w.finalizing && Enabled(w, e.step)
    ensures var next := Apply(w, wire, e.step, e.reason, e.report); next.output == w.output && next.finalizing
  {}

  lemma {:induction false} SilentAfterEnd(w: Worker, wire: Wire, entries: seq<Entry>)
    requires WorkerInv(w, wire) && w.finalizing && CanRun(w, wire, entries)
    ensures Run(w, wire, entries).output == w.output
    decreases |entries|
  {
    if entries != [] {
      var e := entries[0];
      ApplyKeeps(w, wire, e.step, e.reason, e.report);
      FinishedIsSilent(w, wire, e);
      SilentAfterEnd(Apply(w, wire, e.step, e.reason, e.report), wire, entries[1..]);
    }
  }

  /** A worker that is ending is waiting only for its session's abort, and then writes the terminal record. */
  lemma EndingFinishes(w: Worker, wire: Wire, report: string)
    requires Reachable(w, wire) && Ending(w) && !w.finalizing
    ensures Enabled(w, AbortDone) && w.aborting == w.cause
    ensures var r := OutRecord(Terminal(w.aborting.value), 0, report);
      var end := Apply(w, wire, AbortDone, "", report);
      end.finalizing && (Writable(wire, r) ==>
        end.output.writer.written != [] && end.output.writer.written[|end.output.writer.written| - 1] == r)
  {
    ReachableInv(w, wire);
    if w.start.Some? {
      QuietAppends(w.output, wire, Cancellations(w.broker, w.abortReason));
      QuietEmission(w.output, wire, Cancellations(w.broker, w.abortReason));
    }
  }

  // ---------------------------------------------------------------- what reaches the output

  function TotalSize(wire: Wire, records: seq<OutRecord>): nat {
    if records == [] then 0 else Size(wire, records[0]) + TotalSize(wire, records[1..])
  }

  lemma {:induction false} CancelsWithRoom(o: OutputState, wire: Wire, cancels: seq<OutRecord>)
    requires Open(o) && AreCancels(cancels) && (forall r | r in cancels :: Writable(wire, r))
    requires o.outputBytes + TotalSize(wire, cancels) <= o.limits.maxOutputBytes
    ensures EmitQuietly(o, wire, cancels).writer.written == o.writer.written + cancels
    decreases |cancels|
  {
    if cancels == [] {
      assert o.writer.written + [] == o.writer.written;
    } else {
      assert cancels[0] in cancels;
      EmissionFails(o, wire, cancels[0]);
      CancelsWithRoom(Emit(o, wire, cancels[0]).0, wire, cancels[1..]);
      assert (o.writer.written + [cancels[0]]) + cancels[1..] == o.writer.written + cancels;
    }
  }

  /**
   * Ending a run settles every pending tool request, and writes one cancellation for each, in order and before anything
   * else, as far as the byte budget goes.
   */
  lemma EndingCancelsTools(w: Worker, wire: Wire, state: TerminalState, reason: string)
    requires Reachable(w, wire) && w.start.Some? && !Ending(w)
    ensures var end := Terminate(w, wire, state, reason); var cancels := Cancellations(w.broker, reason);
      && end.broker.pending == [] && |cancels| == |w.broker.pending|
      && (forall i | 0 <= i < |cancels| ::
           cancels[i].kind.record == ToolBroker.ToolCancel(w.broker.pending[i].requestId, reason))
      && ((forall r | r in cancels :: Writable(wire, r))
           && w.output.outputBytes + TotalSize(wire, cancels) <= w.output.limits.maxOutputBytes
        ==> end.output.writer.written == w.output.writer.written + cancels)
  {
    ReachableInv(w, wire);
    UnendedIsOpen(w, wire);
    NothingPendingAfter(w.broker, reason);
    assert Terminate(w, wire, state, reason).output == CancelTools(w, wire, reason);
    var cancels := Cancellations(w.broker, reason);
    if (forall r | r in cancels :: Writable(wire, r))
      && w.output.outputBytes + TotalSize(wire, cancels) <= w.output.limits.maxOutputBytes {
      CancelsWithRoom(w.output, wire, cancels);
    }
  }

  lemma {:induction false} NothingPendingAfter(b: ToolBroker.Broker, reason: string)
    ensures ToolBroker.CancelAll(b, reason).pending == []
    decreases |b.pending|
  {
    if b.pending != [] {
      var cancel := ToolBroker.ToolCancel(b.pending[0].requestId, reason);
      NothingPendingAfter(ToolBroker.SettleCancelled(b, 0).(emitted := b.emitted + [cancel]), reason);
    }
  }

  function Repairs(first: nat, bodies: seq<string>): seq<OutRecord> {
    seq(|bodies|, i requires 0 <= i < |bodies| => OutRecord(SessionMessage, first + i, bodies[i]))
  }

  lemma {:induction false} SessionMessagesAreWritten(w: Worker, wire: Wire, bodies: seq<string>)
    requires Open(w.output) && w.sessionSeq.Some?
    requires forall r | r in Repairs(w.sessionSeq.value, bodies) :: Writable(wire, r)
    ensures EmitSessionMessages(w, wire, bodies).output.writer.written
      == w.output.writer.written + Repairs(w.sessionSeq.value, bodies)
    decreases |bodies|
  {
    var first := w.sessionSeq.value;
    if bodies == [] {
      assert Repairs(first, bodies) == [];
      assert w.output.writer.written + [] == w.output.writer.written;
    } else {
      var head, rest := OutRecord(SessionMessage, first, bodies[0]), Repairs(first + 1, bodies[1..]);
      assert Repairs(first, bodies) == [head] + rest;
      assert head in Repairs(first, bodies) && forall r | r in rest :: r in Repairs(first, bodies);
      assert EmitSessionMessage(w, wire, bodies[0]).output.writer.written == w.output.writer.written + [head];
      SessionMessagesAreWritten(EmitSessionMessage(w, wire, bodies[0]), wire, bodies[1..]);
      assert (w.output.writer.written + [head]) + rest == w.output.writer.written + ([head] + rest);
    }
  }

  /** A session that replayed a history reports every repair before anything else, numbered on from the history. */
  lemma RepairsAreReported(w: Worker, wire: Wire, repairs: seq<string>)
    requires Reachable(w, wire) && w.run.CreatingSession? && !Ending(w) && w.historyLength.Some?
    requires forall r | r in Repairs(w.historyLength.value, repairs) :: Writable(wire, r)
    ensures SessionCreated(w, wire, repairs).output.writer.written
      == w.output.writer.written + Repairs(w.historyLength.value, repairs)
  {
    ReachableInv(w, wire);
    UnendedIsOpen(w, wire);
    SessionMessagesAreWritten(w.(session := true, run := Prompting, sessionSeq := w.historyLength), wire, repairs);
  }

  function IfSome(kind: Kind, number: nat, body: Option<string>): seq<OutRecord> {
    if body.Some? then [OutRecord(kind, number, body.value)] else []
  }

  /** What a session event puts out: its message, what it shows, and its usage, each with the next number. */
  function StoredReport(w: Worker, e: SessionEvent): seq<OutRecord> {
    IfSome(SessionMessage, GetOr(w.sessionSeq, 0), if w.sessionSeq.Some? then e.message else None)
  }

  function ShownReport(w: Worker, e: SessionEvent): seq<OutRecord> {
    IfSome(Kind.Event, w.sequence + 1, e.projected)
  }

  function UsageReport(w: Worker, e: SessionEvent): seq<OutRecord> {
    IfSome(Usage, w.sequence + (if e.projected.Some? then 2 else 1), e.usage)
  }

  predicate AllWritable(wire: Wire, records: seq<OutRecord>) {
    forall i | 0 <= i < |records| :: Writable(wire, records[i])
  }

  /** There is room for all of it. */
  predicate HasRoom(w: Worker, wire: Wire, e: SessionEvent) {
    && AllWritable(wire, StoredReport(w, e)) && AllWritable(wire, ShownReport(w, e))
    && AllWritable(wire, UsageReport(w, e))
    && (e.projected.Some? ==>
      w.output.events < w.output.limits.maxEvents && Size(wire, ShownReport(w, e)[0]) <= w.output.limits.maxEventBytes)
    && w.output.outputBytes + TotalSize(wire, ShownReport(w, e)) + TotalSize(wire, UsageReport(w, e))
         <= w.output.limits.maxOutputBytes
  }

  lemma StoredWithRoom(w: Worker, wire: Wire, message: Option<string>, stored: Worker)
    requires Open(w.output) && stored == if message.Some? then EmitSessionMessage(w, wire, message.value) else w
    requires AllWritable(wire,
      IfSome(SessionMessage, GetOr(w.sessionSeq, 0), if w.sessionSeq.Some? then message else None))
    ensures stored == w.(sessionSeq := stored.sessionSeq, output := stored.output)
    ensures stored.output == w.output.(writer := stored.output.writer) && Open(stored.output)
    ensures stored.output.writer.written == w.output.writer.written
      + IfSome(SessionMessage, GetOr(w.sessionSeq, 0), if w.sessionSeq.Some? then message else None)
  {
    if message.Some? && w.sessionSeq.Some? {
      var report := IfSome(SessionMessage, GetOr(w.sessionSeq, 0), message);
      assert Writable(wire, report[0]);
      assert Writable(wire, OutRecord(SessionMessage, w.sessionSeq.value, message.value));
    }
  }

  lemma NumberedWithRoom(w: Worker, wire: Wire, kind: Kind, body: Option<string>, reason: string, n: Worker)
    requires Open(w.output) && (kind.Event? || kind.Usage?)
    requires n == if body.Some? then Numbered(w, wire, kind, body.value, reason) else w
    requires AllWritable(wire, IfSome(kind, w.sequence + 1, body))
    requires body.Some? ==> !OverLimit(w.output, wire, OutRecord(kind, w.sequence + 1, body.value))
    ensures n == w.(sequence := n.sequence, output := n.output)
      && n.sequence == w.sequence + (if body.Some? then 1 else 0)
    ensures Open(n.output) && n.output.limits == w.output.limits
    ensures n.output.writer.written == w.output.writer.written + IfSome(kind, w.sequence + 1, body)
    ensures n.output.outputBytes == w.output.outputBytes + TotalSize(wire, IfSome(kind, w.sequence + 1, body))
  {
    if body.Some? {
      var r := OutRecord(kind, w.sequence + 1, body.value);
      assert Writable(wire, IfSome(kind, w.sequence + 1, body)[0]);
      EmissionFails(w.output, wire, r);
      assert TotalSize(wire, [r]) == Size(wire, r);
    }
  }

  lemma OnlyOne(wire: Wire, kind: Kind, number: nat, body: Option<string>)
    ensures TotalSize(wire, IfSome(kind, number, body))
      == if body.Some? then Size(wire, OutRecord(kind, number, body.value)) else 0
  {}

  /** While the run lasts, a session event with room in the output reports all it has to, in order, and ends nothing. */
  lemma EventIsReported(w: Worker, wire: Wire, e: SessionEvent, reason: string)
    requires Reachable(w, wire) && w.session && !Ending(w) && HasRoom(w, wire, e)
    ensures var next := OnSessionEvent(w, wire, e, reason);
      && next.output.writer.written
           == w.output.writer.written + StoredReport(w, e) + ShownReport(w, e) + UsageReport(w, e)
      && !Ending(next)
  {
    ReachableInv(w, wire);
    UnendedIsOpen(w, wire);
    OpenEventIsReported(w, wire, e, reason);
  }

  lemma OpenEventIsReported(w: Worker, wire: Wire, e: SessionEvent, reason: string)
    requires Open(w.output) && w.start.Some? && w.session && !Ending(w) && HasRoom(w, wire, e)
    ensures var next := OnSessionEvent(w, wire, e, reason);
      && next.output.writer.written
           == w.output.writer.written + StoredReport(w, e) + ShownReport(w, e) + UsageReport(w, e)
      && !Ending(next)
  {
    OnlyOne(wire, Kind.Event, w.sequence + 1, e.projected);
    OnlyOne(wire, Usage, w.sequence + (if e.projected.Some? then 2 else 1), e.usage);
    var stored := if e.message.Some? then EmitSessionMessage(w, wire, e.message.value) else w;
    StoredWithRoom(w, wire, e.message, stored);
    var shown := Reported(w, wire, e, reason);
    NumberedWithRoom(stored, wire, Kind.Event, e.projected, reason, shown);
    var next := OnSessionEvent(w, wire, e, reason);
    NumberedWithRoom(shown, wire, Usage, e.usage, reason, next);
  }

  /**
   * Whatever run the worker had, a reader at the other end that decodes what the worker encodes gets
   * exactly its records, in order, however the bytes arrive, exactly when it always has room for what it feeds.
   */
  lemma ReaderGetsTheRun(w: Worker, wire: Wire, decode: seq<byte> -> Decoded<OutRecord>, limits: Limits, ops: seq<Op>)
    requires Reachable(w, wire) && wire.maxRecordBytes <= limits.maxRecordBytes + 1
    requires forall r | r in w.output.writer.written :: Invertible(CodecOf(wire).(decode := decode), r)
    requires FedBytes(ops) == Stream(CodecOf(wire).(decode := decode), w.output.writer.written)
    ensures var (last, taken, error) := Read(Empty<OutRecord>(), limits, decode, ops);
      && (error.Some? ==> Overflow(error.value))
      && (error.None? ==> taken + RecordsOf(last.records) == w.output.writer.written && End(last).1.None?)
      && (error.None? <==> AlwaysRoom(Empty<OutRecord>(), limits, decode, ops))
  {
    ReachableInv(w, wire);
    var codec, written := CodecOf(wire).(decode := decode), w.output.writer.written;
    assert CodecOf(wire).encode == codec.encode;
    assert Readable(codec, limits, written);
    StreamIsRead(limits, codec, ops, written);
  }
}
