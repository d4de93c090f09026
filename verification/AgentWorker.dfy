/**
 * The life of an agent worker (apps/agent-runtime/src/agent-worker.ts).
 *
 * The handlers run to their next `await` without interruption, so a run is a sequence of events, one
 * for every way the worker can be entered: input records, timers, session callbacks, tool calls, and the
 * settling of what its coroutines await. `reason` is the text of a step's error, if it has one, and `report` the
 * JSON of the terminal record.
 */
module AgentWorkerModel {
  import opened Wrappers
  import opened Output
  import ToolTranscript
  import ToolBroker

  const MAX_PENDING_MESSAGES := 64
  const MAX_PENDING_BYTES := 512 * 1024

  /** A steering or follow-up message, with its size in UTF-8 bytes. */
  datatype UserMessage = UserMessage(text: string, bytes: nat)

  /** Where the coroutine of `#run` is: not begun, at one of its awaits, or over. */
  datatype RunPhase = NotStarted | CreatingSession | Prompting | AwaitingIdle | Discarding | Over

  /**
   * `start` holds the limits of the start record. `aborting` and `abortReason` are the state and the reason of a
   * `#terminate` suspended in the session's abort. `accepted` and `delivered` are the user messages taken in and handed
   * to the session, and `cause` is the state of the first accepted reason to end.
   */
  datatype Worker = Worker(
    output: OutputState,
    start: Option<OutputLimits>,
    broker: ToolBroker.Broker,
    session: bool,
    run: RunPhase,
    sequence: nat,
    sessionSeq: Option<nat>,
    historyLength: Option<nat>,
    finalizing: bool,
    terminating: bool,
    terminationState: Option<TerminalState>,
    aborting: Option<TerminalState>,
    abortReason: string,
    pendingMessages: seq<UserMessage>,
    pendingMessageBytes: nat,
    accepted: seq<UserMessage>,
    delivered: seq<UserMessage>,
    cause: Option<TerminalState>)

  datatype Input =
    | StartInput(limits: OutputLimits, history: Option<nat>, replayFails: bool, limitError: bool)
    | ToolResultInput(requestId: string, tooLarge: bool, final: bool, isError: bool)
    | ToolCancelInput(requestId: string)
    | MessageInput(message: UserMessage)
    | CancelInput
    | StorageInput

  datatype InputError = AfterTerminalState | NotAStart | DuplicateStart | UnknownTool | QueueFull

  function InitialWorker(): Worker {
    Worker(InitialOutput(), None, ToolBroker.Init(), false, NotStarted, 0, None, None, false, false, None, None, "", [],
      0, [], [], None)
  }

  /** Something has decided the end of the run. */
  predicate Ending(w: Worker) {
    w.finalizing || w.terminating
  }

  // ---------------------------------------------------------------- ending

  /** Emission while ending: a failure would terminate again, which does nothing. */
  function EmitQuietly(o: OutputState, wire: Wire, records: seq<OutRecord>): OutputState
    decreases |records|
  {
    if records == [] then o else EmitQuietly(Emit(o, wire, records[0]).0, wire, records[1..])
  }

  function ToolRecord(record: ToolBroker.Record): OutRecord {
    OutRecord(Tool(record), 0, "")
  }

  /** What `cancelAll` emits: one cancellation for every pending request, in order. */
  function Cancellations(b: ToolBroker.Broker, reason: string): seq<OutRecord> {
    seq(|b.pending|, i requires 0 <= i < |b.pending| =>
      ToolRecord(ToolBroker.ToolCancel(b.pending[i].requestId, reason)))
  }

  /** `cancelAll`: a worker that was never started has no broker. */
  function CancelTools(w: Worker, wire: Wire, reason: string): OutputState {
    if w.start.Some? then EmitQuietly(w.output, wire, Cancellations(w.broker, reason)) else w.output
  }

  function StopTools(w: Worker, reason: string): ToolBroker.Broker {
    if w.start.Some? then ToolBroker.CancelAll(w.broker, reason) else w.broker
  }

  function Stopped(w: Worker, wire: Wire, reason: string): Worker {
    w.(output := CancelTools(w, wire, reason), broker := StopTools(w, reason))
  }

  /** The first accepted reason stays the cause. */
  function Caused(w: Worker, state: TerminalState): Option<TerminalState> {
    if w.cause.Some? then w.cause else Some(state)
  }

  function Terminating(w: Worker, state: TerminalState, reason: string): Worker {
    w.(terminating := true, terminationState := Some(state), aborting := Some(state), abortReason := reason,
      cause := Caused(w, state))
  }

  function Terminate(w: Worker, wire: Wire, state: TerminalState, reason: string): Worker {
    if Ending(w) then w else Stopped(Terminating(w, state, reason), wire, reason)
  }

  function Finish(w: Worker, wire: Wire, state: TerminalState, reason: string, report: string): Worker {
    if w.finalizing then w
    else
      var stopped := Stopped(w.(finalizing := true, cause := Caused(w, state)), wire, reason);
      stopped.(output := EmitTerminal(stopped.output, wire, OutRecord(Terminal(state), 0, report)).0)
  }

  /** The rest of `#terminate`, after the session's abort has settled. */
  function AbortSettled(w: Worker, wire: Wire, report: string): Worker
    requires w.aborting.Some?
  {
    Finish(w.(terminating := false, aborting := None), wire, w.aborting.value, w.abortReason, report)
  }

  function ErrorState(e: EmitError): TerminalState {
    if e.LimitReached? then LIMIT_EXCEEDED else FAILED
  }

  function EmitRecord(w: Worker, wire: Wire, r: OutRecord, reason: string): Worker {
    var (output, error) := Emit(w.output, wire, r);
    var next := w.(output := output);
    if error.Some? then Terminate(next, wire, ErrorState(error.value), reason) else next
  }

  function EmitSessionMessage(w: Worker, wire: Wire, body: string): Worker {
    if w.sessionSeq.None? then w
    else w.(sessionSeq := Some(w.sessionSeq.value + 1),
            output := EmitSession(w.output, wire, OutRecord(SessionMessage, w.sessionSeq.value, body)))
  }

  function EmitSessionMessages(w: Worker, wire: Wire, bodies: seq<string>): Worker
    decreases |bodies|
  {
    if bodies == [] then w else EmitSessionMessages(EmitSessionMessage(w, wire, bodies[0]), wire, bodies[1..])
  }

  /** `#run` ends on its own: unless something else has ended the run, with its own state. */
  function RunEnds(w: Worker, wire: Wire, state: TerminalState, reason: string, report: string): Worker {
    var over := w.(run := Over);
    if Ending(w) then over else Finish(over, wire, state, reason, report)
  }

  /** The state `#run` reports for a caught error. */
  function CaughtState(w: Worker, limitError: bool): TerminalState {
    if limitError then LIMIT_EXCEEDED else GetOr(w.terminationState, FAILED)
  }

  // ---------------------------------------------------------------- input

  function Begin(w: Worker, wire: Wire, input: Input, reason: string, report: string): Worker
    requires input.StartInput?
  {
    var begun := w.(start := Some(input.limits), output := Configure(w.output, input.limits),
      historyLength := input.history, run := CreatingSession);
    if input.replayFails then RunEnds(begun, wire, CaughtState(begun, input.limitError), reason, report) else begun
  }

  function AcceptMessage(w: Worker, m: UserMessage): (Worker, Option<InputError>) {
    if w.session then (w.(accepted := w.accepted + [m], delivered := w.delivered + [m]), None)
    else if |w.pendingMessages| >= MAX_PENDING_MESSAGES || w.pendingMessageBytes + m.bytes > MAX_PENDING_BYTES then
      (w, Some(QueueFull))
    else
      (w.(accepted := w.accepted + [m], pendingMessages := w.pendingMessages + [m],
        pendingMessageBytes := w.pendingMessageBytes + m.bytes), None)
  }

  /** A result for the broker: only one over the limit concerns the worker, the others end in the broker. */
  function ReceiveResult(w: Worker, wire: Wire, requestId: string, tooLarge: bool, final: bool, isError: bool,
          reason: string): (Worker, Option<InputError>) {
    var (broker, thrown) := ToolBroker.AcceptResult(w.broker, requestId, tooLarge, final, isError);
    if thrown == Some(ToolBroker.ResultLimit) then (Terminate(w.(broker := broker), wire, LIMIT_EXCEEDED, reason), None)
    else (w.(broker := broker), if thrown.Some? then Some(UnknownTool) else None)
  }

  function ReceiveCancel(w: Worker, requestId: string): (Worker, Option<InputError>) {
    var (broker, thrown) := ToolBroker.SettleError(w.broker, requestId);
    (w.(broker := broker), if thrown.Some? then Some(UnknownTool) else None)
  }

  function Receive(w: Worker, wire: Wire, input: Input, reason: string, report: string): (Worker, Option<InputError>) {
    if Ending(w) || w.output.terminal then (w, Some(AfterTerminalState))
    else if w.start.None? then
      if input.StartInput? then (Begin(w, wire, input, reason, report), None) else (w, Some(NotAStart))
    else match input
      case StartInput(_, _, _, _) => (w, Some(DuplicateStart))
      case ToolResultInput(requestId, tooLarge, final, isError) =>
        ReceiveResult(w, wire, requestId, tooLarge, final, isError, reason)
      case ToolCancelInput(requestId) => ReceiveCancel(w, requestId)
      case MessageInput(m) => AcceptMessage(w, m)
      case CancelInput => (Terminate(w, wire, CANCELLED, reason), None)
      case StorageInput => (w, None)
  }

  // ---------------------------------------------------------------- tools

  /** The broker has done something, and emitted one record more or none. */
  function AfterBroker(w: Worker, wire: Wire, broker: ToolBroker.Broker, reason: string): Worker {
    var next := w.(broker := broker);
    if |broker.emitted| > |w.broker.emitted| then
      EmitRecord(next, wire, ToolRecord(broker.emitted[|broker.emitted| - 1]), reason)
    else next
  }

  /** A tool call of the session. */
  datatype ToolCall = ToolCall(operation: string, id: string, params: ToolTranscript.Json,
          transcript: Option<seq<ToolTranscript.Message>>, aborted: bool)

  function Executed(b: ToolBroker.Broker, hash: string -> string, call: ToolCall): ToolBroker.Broker {
    ToolBroker.Execute(b, hash, call.operation, call.id, call.params, call.transcript, call.aborted)
  }

  // ---------------------------------------------------------------- the session

  /** Hands the queued messages over, in order, and empties the queue. */
  function Flush(w: Worker): Worker {
    w.(pendingMessages := [], pendingMessageBytes := 0, delivered := w.delivered + w.pendingMessages)
  }

  /** The session exists: unless the run is ending, report the repairs, start the prompt, flush the queue. */
  function SessionCreated(w: Worker, wire: Wire, repairs: seq<string>): Worker {
    if Ending(w) then w.(run := Discarding)
    else
      var live := w.(session := true, run := Prompting, sessionSeq := w.historyLength);
      Flush(if w.historyLength.Some? then EmitSessionMessages(live, wire, repairs) else live)
  }

  /** A session event: the message it completes, its projection, and whether it reports usage. */
  datatype SessionEvent = SessionEvent(message: Option<string>, projected: Option<string>, usage: Option<string>)

  function Numbered(w: Worker, wire: Wire, kind: Kind, body: string, reason: string): Worker {
    EmitRecord(w.(sequence := w.sequence + 1), wire, OutRecord(kind, w.sequence + 1, body), reason)
  }

  /** The message the event completes, if it is a session message, and what it shows, if anything. */
  function Reported(w: Worker, wire: Wire, e: SessionEvent, reason: string): Worker {
    var stored := if e.message.Some? then EmitSessionMessage(w, wire, e.message.value) else w;
    if e.projected.Some? then Numbered(stored, wire, Kind.Event, e.projected.value, reason) else stored
  }

  function OnSessionEvent(w: Worker, wire: Wire, e: SessionEvent, reason: string): Worker {
    if w.start.None? || !w.session || Ending(w) then w
    else
      var reported := Reported(w, wire, e, reason);
      if e.usage.Some? then Numbered(reported, wire, Usage, e.usage.value, reason) else reported
  }

  // ---------------------------------------------------------------- runs

  datatype Step =
    | Inbound(input: Input)
    | Interrupted
    | DeadlinePassed
    | FactorySettled(repairs: Option<seq<string>>, limitError: bool)
    | Happened(event: SessionEvent)
    | ToolExecutes(call: ToolCall)
    | ToolAborts(requestId: string)
    | PromptSettled(ok: bool, limitError: bool)
    | IdleSettled(ok: bool, limitError: bool, failure: Option<TerminalState>)
    | WriteFailed
    | DeliveryFailed
    | AbortDone
    | DiscardDone

  predicate Enabled(w: Worker, s: Step) {
    match s
    case Inbound(_) => true
    case Interrupted => true
    case DeadlinePassed => w.start.Some? && !w.finalizing
    case FactorySettled(_, _) => w.run.CreatingSession?
    case Happened(_) => w.session
    case ToolExecutes(_) => w.start.Some?
    case ToolAborts(_) => w.start.Some?
    case PromptSettled(_, _) => w.run.Prompting?
    case IdleSettled(_, _, _) => w.run.AwaitingIdle?
    case WriteFailed => w.output.writer.written != []
    case DeliveryFailed => w.delivered != []
    case AbortDone => w.aborting.Some?
    case DiscardDone => w.run.Discarding?
  }

  function Apply(w: Worker, wire: Wire, s: Step, reason: string, report: string): Worker
    requires Enabled(w, s)
  {
    match s
    case Inbound(input) => Receive(w, wire, input, reason, report).0
    case Interrupted => Terminate(w, wire, INTERRUPTED, reason)
    case DeadlinePassed => Terminate(w, wire, TIMED_OUT, reason)
    case FactorySettled(repairs, limitError) =>
      if repairs.Some? then SessionCreated(w, wire, repairs.value)
      else RunEnds(w, wire, CaughtState(w, limitError), reason, report)
    case Happened(event) => OnSessionEvent(w, wire, event, reason)
    case ToolExecutes(call) => AfterBroker(w, wire, Executed(w.broker, wire.hash, call), reason)
    case ToolAborts(requestId) => AfterBroker(w, wire, ToolBroker.Abort(w.broker, requestId), reason)
    case PromptSettled(ok, limitError) =>
      if ok then w.(run := AwaitingIdle) else RunEnds(w, wire, CaughtState(w, limitError), reason, report)
    case IdleSettled(ok, limitError, failure) =>
      RunEnds(w, wire, if ok then GetOr(failure, SUCCEEDED) else CaughtState(w, limitError), reason, report)
    case WriteFailed => Terminate(w, wire, INTERRUPTED, reason)
    case DeliveryFailed => Terminate(w, wire, FAILED, reason)
    case AbortDone => AbortSettled(w, wire, report)
    case DiscardDone => w.(run := Over)
  }

  datatype Entry = Entry(step: Step, reason: string, report: string)

  predicate IsCancel(r: OutRecord) {
    r.kind.Tool? && r.kind.record.ToolCancel?
  }

  predicate AreCancels(records: seq<OutRecord>) {
    forall i | 0 <= i < |records| :: IsCancel(records[i])
  }

  predicate CanRun(w: Worker, wire: Wire, entries: seq<Entry>)
    decreases |entries|
  {
    entries == [] || (Enabled(w, entries[0].step)
      && CanRun(Apply(w, wire, entries[0].step, entries[0].reason, entries[0].report), wire, entries[1..]))
  }

  function Run(w: Worker, wire: Wire, entries: seq<Entry>): Worker
    requires CanRun(w, wire, entries)
    decreases |entries|
  {
    if entries == [] then w
    else Run(Apply(w, wire, entries[0].step, entries[0].reason, entries[0].report), wire, entries[1..])
  }

  // ---------------------------------------------------------------- invariants

  /** Ending is suspended in an abort, or done; both know the first accepted cause. */
  ghost predicate Lifecycle(w: Worker) {
    && !(w.terminating && w.finalizing)
    && (w.output.terminal <==> w.finalizing)
    && (w.cause.Some? <==> Ending(w))
    && (w.aborting.Some? <==> w.terminating)
    && (w.terminating ==> w.aborting == w.cause && w.terminationState == w.cause)
    && (w.terminationState.Some? ==> Ending(w))
    && !w.output.writer.closed
  }

  /** What each place of the run's coroutine implies. */
  ghost predicate Phases(w: Worker) {
    && (w.start.Some? <==> !w.run.NotStarted?)
    && (w.start.None? ==> CanConfigure(w.output))
    && (w.start.Some? ==> w.output.limits == w.start.value)
    && (w.run.NotStarted? || w.run.CreatingSession? || w.run.Discarding? ==> !w.session && w.sessionSeq.None?)
    && (w.run.Prompting? || w.run.AwaitingIdle? ==> w.session)
    && (w.run.Over? || w.run.Discarding? ==> Ending(w))
  }

  function MessageBytes(messages: seq<UserMessage>): nat {
    if messages == [] then 0 else MessageBytes(messages[..|messages| - 1]) + messages[|messages| - 1].bytes
  }

  /** Every message taken in is handed over once, in order, or waits in the bounded queue. */
  ghost predicate Messages(w: Worker) {
    && w.accepted == w.delivered + w.pendingMessages
    && (w.session ==> w.pendingMessages == [])
    && |w.pendingMessages| <= MAX_PENDING_MESSAGES
    && w.pendingMessageBytes == MessageBytes(w.pendingMessages) <= MAX_PENDING_BYTES
  }

  /** A terminal record carries the first accepted cause. */
  ghost predicate Causes(w: Worker) {
    forall r | r in w.output.writer.written && r.kind.Terminal? :: w.cause == Some(r.kind.state)
  }

  predicate IsNumbered(r: OutRecord) {
    r.kind.Event? || r.kind.Usage?
  }

  ghost predicate EventsOrdered(written: seq<OutRecord>, sequence: nat) {
    && (forall i | 0 <= i < |written| && IsNumbered(written[i]) :: 1 <= written[i].number <= sequence)
    && (forall i, j | 0 <= i < j < |written| && IsNumbered(written[i]) && IsNumbered(written[j]) ::
         written[i].number < written[j].number)
  }

  ghost predicate SessionOrdered(written: seq<OutRecord>, first: nat, next: nat) {
    && (forall i | 0 <= i < |written| && written[i].kind.SessionMessage? :: first <= written[i].number < next)
    && (forall i, j | 0 <= i < j < |written| && written[i].kind.SessionMessage? && written[j].kind.SessionMessage? ::
         written[i].number < written[j].number)
  }

  ghost predicate Ordered(w: Worker) {
    && (w.sessionSeq.Some? ==> GetOr(w.historyLength, 0) <= w.sessionSeq.value)
    && EventsOrdered(w.output.writer.written, w.sequence)
    && SessionOrdered(w.output.writer.written, GetOr(w.historyLength, 0), GetOr(w.sessionSeq, 0))
  }

  ghost predicate WorkerInv(w: Worker, wire: Wire) {
    Lifecycle(w) && Phases(w) && Messages(w) && Causes(w) && Ordered(w) && OutputInv(w.output, wire)
  }

  // ---------------------------------------------------------------- what one emission keeps

  /** `after` is `before` with tool cancellations appended. */
  ghost predicate Appends(before: seq<OutRecord>, after: seq<OutRecord>) {
    && |before| <= |after| && after[..|before|] == before
    && forall i | |before| <= i < |after| :: IsCancel(after[i])
  }

  lemma {:induction false} QuietEmission(o: OutputState, wire: Wire, cancels: seq<OutRecord>)
    requires AreCancels(cancels) && OutputInv(o, wire)
    ensures OutputInv(EmitQuietly(o, wire, cancels), wire)
    decreases |cancels|
  {
    if cancels != [] {
      EmitKeeps(o, wire, cancels[0]);
      QuietEmission(Emit(o, wire, cancels[0]).0, wire, cancels[1..]);
    }
  }

  lemma {:induction false} QuietAppends(o: OutputState, wire: Wire, cancels: seq<OutRecord>)
    requires AreCancels(cancels)
    ensures var q := EmitQuietly(o, wire, cancels);
      q.terminal == o.terminal && q.limits == o.limits && q.writer.closed == o.writer.closed
        && Appends(o.writer.written, q.writer.written)
    decreases |cancels|
  {
    if cancels != [] {
      var next := Emit(o, wire, cancels[0]).0;
      QuietAppends(next, wire, cancels[1..]);
      AppendsCompose(o.writer.written, next.writer.written, EmitQuietly(o, wire, cancels).writer.written);
    }
  }

  lemma AppendsCompose(a: seq<OutRecord>, b: seq<OutRecord>, c: seq<OutRecord>)
    requires Appends(a, b) && Appends(b, c)
    ensures Appends(a, c)
  {
    assert forall i | 0 <= i < |b| :: c[i] == c[..|b|][i];
    assert c[..|a|] == c[..|b|][..|a|];
  }

  lemma QuietOrder(before: seq<OutRecord>, after: seq<OutRecord>, sequence: nat, first: nat, next: nat)
    requires Appends(before, after) && EventsOrdered(before, sequence) && SessionOrdered(before, first, next)
    ensures EventsOrdered(after, sequence) && SessionOrdered(after, first, next)
  {
    assert forall i | 0 <= i < |before| :: after[i] == after[..|before|][i];
  }

  /** What holds of the output of a worker that has not finished. */
  ghost predicate Unfinished(w: Worker, wire: Wire) {
    && !w.output.terminal && !w.output.writer.closed
    && (w.start.None? ==> CanConfigure(w.output))
    && (w.start.Some? ==> w.output.limits == w.start.value)
    && OutputInv(w.output, wire) && Ordered(w)
  }

  lemma CancelToolsKeeps(w: Worker, wire: Wire, reason: string)
    requires Unfinished(w, wire)
    ensures Unfinished(w.(output := CancelTools(w, wire, reason)), wire)
  {
    if w.start.Some? {
      QuietEmission(w.output, wire, Cancellations(w.broker, reason));
      QuietAppends(w.output, wire, Cancellations(w.broker, reason));
      QuietOrder(w.output.writer.written, CancelTools(w, wire, reason).writer.written,
        w.sequence, GetOr(w.historyLength, 0), GetOr(w.sessionSeq, 0));
    }
  }

  lemma NoTerminalYet(o: OutputState, wire: Wire)
    requires OutputInv(o, wire) && !o.terminal
    ensures forall r | r in o.writer.written :: !r.kind.Terminal?
  {
    forall i | 0 <= i < |o.writer.written| ensures !o.writer.written[i].kind.Terminal? {
      assert CodecOf(wire).terminal(o.writer.written[i]) == o.writer.written[i].kind.Terminal?;
    }
  }

  lemma TerminateKeeps(w: Worker, wire: Wire, state: TerminalState, reason: string)
    requires WorkerInv(w, wire)
    ensures WorkerInv(Terminate(w, wire, state, reason), wire)
  {
    if !Ending(w) {
      CancelToolsKeeps(w, wire, reason);
      NoTerminalYet(CancelTools(w, wire, reason), wire);
    }
  }

  lemma TerminalOrder(written: seq<OutRecord>, r: OutRecord, sequence: nat, first: nat, next: nat)
    requires r.kind.Terminal? && EventsOrdered(written, sequence) && SessionOrdered(written, first, next)
    ensures EventsOrdered(written + [r], sequence) && SessionOrdered(written + [r], first, next)
  {}

  /** Writing the terminal record keeps the output's invariants and states only this cause. */
  lemma FinalRecord(w: Worker, wire: Wire, state: TerminalState, report: string)
    requires Unfinished(w, wire)
    ensures var o := EmitTerminal(w.output, wire, OutRecord(Terminal(state), 0, report)).0;
      && OutputInv(o, wire) && o.terminal && o.limits == w.output.limits && !o.writer.closed && Ordered(w.(output := o))
      && forall r | r in o.writer.written && r.kind.Terminal? :: r.kind.state == state
  {
    var r := OutRecord(Terminal(state), 0, report);
    EmitTerminalInv(w.output, wire, r);
    TerminalOrder(w.output.writer.written, r, w.sequence, GetOr(w.historyLength, 0), GetOr(w.sessionSeq, 0));
    NoTerminalYet(w.output, wire);
  }

  lemma FinishOutput(w: Worker, wire: Wire, state: TerminalState, reason: string, report: string)
    requires Unfinished(w, wire) && !w.finalizing && (w.cause.Some? ==> w.cause == Some(state))
    ensures var f := Finish(w, wire, state, reason, report);
      && OutputInv(f.output, wire) && f.output.terminal && !f.output.writer.closed && Ordered(f) && Causes(f)
      && (f.start.None? ==> CanConfigure(f.output)) && (f.start.Some? ==> f.output.limits == f.start.value)
  {
    CancelToolsKeeps(w, wire, reason);
    FinalRecord(w.(output := CancelTools(w, wire, reason)), wire, state, report);
  }

  lemma FinishKeeps(w: Worker, wire: Wire, state: TerminalState, reason: string, report: string)
    requires WorkerInv(w, wire) && !Ending(w)
    ensures WorkerInv(Finish(w, wire, state, reason, report), wire)
  {
    FinishOutput(w, wire, state, reason, report);
  }

  lemma AbortSettledKeeps(w: Worker, wire: Wire, report: string)
    requires WorkerInv(w, wire) && w.aborting.Some?
    ensures WorkerInv(AbortSettled(w, wire, report), wire)
  {
    FinishOutput(w.(terminating := false, aborting := None), wire, w.aborting.value, w.abortReason, report);
  }

  lemma RunEndsKeeps(w: Worker, wire: Wire, state: TerminalState, reason: string, report: string)
    requires WorkerInv(w, wire) && w.start.Some?
    ensures WorkerInv(RunEnds(w, wire, state, reason, report), wire)
  {
    if !Ending(w) {
      FinishKeeps(w, wire, state, reason, report);
      assert RunEnds(w, wire, state, reason, report) == Finish(w, wire, state, reason, report).(run := Over);
    }
  }

  // ---------------------------------------------------------------- emissions

  lemma ToolOrder(written: seq<OutRecord>, r: OutRecord, sequence: nat, first: nat, next: nat)
    requires r.kind.Tool?
    requires EventsOrdered(written, sequence) && SessionOrdered(written, first, next)
    ensures EventsOrdered(written + [r], sequence) && SessionOrdered(written + [r], first, next)
  {}

  lemma NumberedOrder(written: seq<OutRecord>, r: OutRecord, sequence: nat, first: nat, next: nat)
    requires IsNumbered(r) && r.number == sequence + 1
    requires EventsOrdered(written, sequence) && SessionOrdered(written, first, next)
    ensures EventsOrdered(written, sequence + 1)
    ensures EventsOrdered(written + [r], sequence + 1) && SessionOrdered(written + [r], first, next)
  {}

  lemma SessionOrder(written: seq<OutRecord>, r: OutRecord, sequence: nat, first: nat, next: nat)
    requires r.kind.SessionMessage? && first <= r.number == next
    requires EventsOrdered(written, sequence) && SessionOrdered(written, first, next)
    ensures SessionOrdered(written, first, next + 1)
    ensures EventsOrdered(written + [r], sequence) && SessionOrdered(written + [r], first, next + 1)
  {}

  /** A record offered to the output, and the number it takes. */
  function Offer(w: Worker, wire: Wire, r: OutRecord): Worker {
    w.(sequence := if IsNumbered(r) then r.number else w.sequence, output := Emit(w.output, wire, r).0)
  }

  /** What the run may emit: a tool record, or an event or usage record with the next number. */
  predicate MayEmit(w: Worker, r: OutRecord) {
    r.kind.Tool? || (IsNumbered(r) && r.number == w.sequence + 1)
  }

  /** An emission writes the record or leaves the writer alone. */
  lemma EmitWrites(o: OutputState, wire: Wire, r: OutRecord)
    requires IsCaller(r)
    ensures var e := Emit(o, wire, r).0;
      && e.terminal == o.terminal && e.limits == o.limits && e.writer.closed == o.writer.closed
      && (e.writer.written == o.writer.written || e.writer.written == o.writer.written + [r])
  {}

  lemma OfferOrder(w: Worker, wire: Wire, r: OutRecord)
    requires Ordered(w) && MayEmit(w, r)
    ensures Ordered(Offer(w, wire, r))
  {
    var written, first, next := w.output.writer.written, GetOr(w.historyLength, 0), GetOr(w.sessionSeq, 0);
    EmitWrites(w.output, wire, r);
    if IsNumbered(r) {
      NumberedOrder(written, r, w.sequence, first, next);
    } else {
      ToolOrder(written, r, w.sequence, first, next);
    }
  }

  lemma OfferKeeps(w: Worker, wire: Wire, r: OutRecord)
    requires WorkerInv(w, wire) && MayEmit(w, r) && w.start.Some?
    ensures WorkerInv(Offer(w, wire, r), wire)
  {
    EmitWrites(w.output, wire, r);
    OfferOrder(w, wire, r);
    EmitKeeps(w.output, wire, r);
  }

  function Offered(w: Worker, wire: Wire, r: OutRecord, reason: string): Worker {
    var error := Emit(w.output, wire, r).1;
    if error.Some? then Terminate(Offer(w, wire, r), wire, ErrorState(error.value), reason) else Offer(w, wire, r)
  }

  lemma OfferedKeeps(w: Worker, wire: Wire, r: OutRecord, reason: string)
    requires WorkerInv(w, wire) && MayEmit(w, r) && w.start.Some?
    ensures WorkerInv(Offered(w, wire, r, reason), wire)
  {
    OfferKeeps(w, wire, r);
    var error := Emit(w.output, wire, r).1;
    if error.Some? {
      TerminateKeeps(Offer(w, wire, r), wire, ErrorState(error.value), reason);
    }
  }

  lemma EmissionsAreOffers(w: Worker, wire: Wire, kind: Kind, body: string, r: OutRecord, reason: string)
    ensures kind.Event? || kind.Usage?
      ==> Numbered(w, wire, kind, body, reason) == Offered(w, wire, OutRecord(kind, w.sequence + 1, body), reason)
    ensures !IsNumbered(r) ==> EmitRecord(w, wire, r, reason) == Offered(w, wire, r, reason)
  {}

  lemma EmitRecordKeeps(w: Worker, wire: Wire, r: OutRecord, reason: string)
    requires WorkerInv(w, wire) && r.kind.Tool? && w.start.Some?
    ensures WorkerInv(EmitRecord(w, wire, r, reason), wire)
  {
    EmissionsAreOffers(w, wire, r.kind, "", r, reason);
    OfferedKeeps(w, wire, r, reason);
  }

  lemma NumberedKeeps(w: Worker, wire: Wire, kind: Kind, body: string, reason: string)
    requires WorkerInv(w, wire) && w.start.Some? && (kind.Event? || kind.Usage?)
    ensures WorkerInv(Numbered(w, wire, kind, body, reason), wire) && Numbered(w, wire, kind, body, reason).start.Some?
  {
    var r := OutRecord(kind, w.sequence + 1, body);
    EmissionsAreOffers(w, wire, kind, body, r, reason);
    OfferedKeeps(w, wire, r, reason);
  }

  lemma SessionMessageKeeps(w: Worker, wire: Wire, body: string)
    requires WorkerInv(w, wire)
    ensures WorkerInv(EmitSessionMessage(w, wire, body), wire)
  {
    if w.sessionSeq.Some? {
      var r := OutRecord(SessionMessage, w.sessionSeq.value, body);
      EmitSessionKeeps(w.output, wire, r);
      EmitSessionWrites(w.output, wire, r);
      SessionMessageOrder(w, wire, body);
    }
  }

  lemma EmitSessionWrites(o: OutputState, wire: Wire, r: OutRecord)
    requires r.kind.SessionMessage?
    ensures var e := EmitSession(o, wire, r);
      && e == o.(writer := e.writer) && e.writer.closed == o.writer.closed
      && (e.writer.written == o.writer.written || e.writer.written == o.writer.written + [r])
  {}

  lemma SessionMessageOrder(w: Worker, wire: Wire, body: string)
    requires Ordered(w)
    ensures Ordered(EmitSessionMessage(w, wire, body))
  {
    if w.sessionSeq.Some? {
      var r := OutRecord(SessionMessage, w.sessionSeq.value, body);
      EmitSessionWrites(w.output, wire, r);
      SessionOrder(w.output.writer.written, r, w.sequence, GetOr(w.historyLength, 0), w.sessionSeq.value);
    }
  }

  lemma {:induction false} SessionMessagesKeep(w: Worker, wire: Wire, bodies: seq<string>)
    requires WorkerInv(w, wire)
    ensures WorkerInv(EmitSessionMessages(w, wire, bodies), wire)
    decreases |bodies|
  {
    if bodies != [] {
      SessionMessageKeeps(w, wire, bodies[0]);
      SessionMessagesKeep(EmitSessionMessage(w, wire, bodies[0]), wire, bodies[1..]);
    }
  }

  lemma ReportedKeeps(w: Worker, wire: Wire, e: SessionEvent, reason: string)
    requires WorkerInv(w, wire) && w.start.Some?
    ensures WorkerInv(Reported(w, wire, e, reason), wire) && Reported(w, wire, e, reason).start.Some?
  {
    var stored := w;
    if e.message.Some? {
      SessionMessageKeeps(w, wire, e.message.value);
      stored := EmitSessionMessage(w, wire, e.message.value);
    }
    if e.projected.Some? {
      NumberedKeeps(stored, wire, Kind.Event, e.projected.value, reason);
    }
  }

  lemma OnSessionEventKeeps(w: Worker, wire: Wire, e: SessionEvent, reason: string)
    requires WorkerInv(w, wire)
    ensures WorkerInv(OnSessionEvent(w, wire, e, reason), wire)
  {
    if w.start.Some? && w.session && !Ending(w) {
      ReportedKeeps(w, wire, e, reason);
      if e.usage.Some? {
        NumberedKeeps(Reported(w, wire, e, reason), wire, Usage, e.usage.value, reason);
      }
    }
  }

  // ---------------------------------------------------------------- input and the session

  lemma BeginKeeps(w: Worker, wire: Wire, input: Input, reason: string, report: string)
    requires WorkerInv(w, wire) && input.StartInput? && w.start.None? && !Ending(w)
    ensures WorkerInv(Begin(w, wire, input, reason, report), wire)
  {
    ConfigureInv(w.output, wire, input.limits);
    var begun := w.(start := Some(input.limits), output := Configure(w.output, input.limits),
      historyLength := input.history, run := CreatingSession);
    RunEndsKeeps(begun, wire, CaughtState(begun, input.limitError), reason, report);
  }

  lemma MessageBytesAppend(messages: seq<UserMessage>, m: UserMessage)
    ensures MessageBytes(messages + [m]) == MessageBytes(messages) + m.bytes
  {
    assert (messages + [m])[..|messages|] == messages;
  }

  lemma Reassociate(a: seq<UserMessage>, b: seq<UserMessage>, m: UserMessage)
    ensures (a + b) + [m] == a + (b + [m])
    ensures b == [] ==> (a + b) + [m] == (a + [m]) + b
  {}

  lemma MessageTaken(w: Worker, m: UserMessage)
    requires Messages(w)
    ensures Messages(AcceptMessage(w, m).0)
  {
    MessageBytesAppend(w.pendingMessages, m);
    Reassociate(w.delivered, w.pendingMessages, m);
  }

  lemma AcceptMessageKeeps(w: Worker, wire: Wire, m: UserMessage)
    requires WorkerInv(w, wire)
    ensures WorkerInv(AcceptMessage(w, m).0, wire)
  {
    MessageTaken(w, m);
  }

  /** The broker's state is none of the output's concern. */
  lemma BrokerKeeps(w: Worker, wire: Wire, broker: ToolBroker.Broker)
    requires WorkerInv(w, wire)
    ensures WorkerInv(w.(broker := broker), wire)
  {}

  lemma ReceiveResultKeeps(w: Worker, wire: Wire, requestId: string, tooLarge: bool, final: bool, isError: bool,
          reason: string)
    requires WorkerInv(w, wire)
    ensures WorkerInv(ReceiveResult(w, wire, requestId, tooLarge, final, isError, reason).0, wire)
  {
    var broker := ToolBroker.AcceptResult(w.broker, requestId, tooLarge, final, isError).0;
    BrokerKeeps(w, wire, broker);
    TerminateKeeps(w.(broker := broker), wire, LIMIT_EXCEEDED, reason);
  }

  lemma AfterBrokerKeeps(w: Worker, wire: Wire, broker: ToolBroker.Broker, reason: string)
    requires WorkerInv(w, wire) && w.start.Some?
    ensures WorkerInv(AfterBroker(w, wire, broker, reason), wire)
  {
    BrokerKeeps(w, wire, broker);
    if |broker.emitted| > |w.broker.emitted| {
      EmitRecordKeeps(w.(broker := broker), wire, ToolRecord(broker.emitted[|broker.emitted| - 1]), reason);
    }
  }

  lemma ReceiveKeeps(w: Worker, wire: Wire, input: Input, reason: string, report: string)
    requires WorkerInv(w, wire)
    ensures WorkerInv(Receive(w, wire, input, reason, report).0, wire)
  {
    if !Ending(w) && !w.output.terminal {
      match input
      case StartInput(_, _, _, _) =>
        if w.start.None? {
          BeginKeeps(w, wire, input, reason, report);
        }
      case MessageInput(m) => AcceptMessageKeeps(w, wire, m);
      case CancelInput => TerminateKeeps(w, wire, CANCELLED, reason);
      case ToolResultInput(requestId, tooLarge, final, isError) =>
        ReceiveResultKeeps(w, wire, requestId, tooLarge, final, isError, reason);
      case ToolCancelInput(requestId) => BrokerKeeps(w, wire, ToolBroker.SettleError(w.broker, requestId).0);
      case _ =>
    }
  }

  lemma {:induction false} FlushCommutes(w: Worker, wire: Wire, bodies: seq<string>)
    ensures EmitSessionMessages(Flush(w), wire, bodies) == Flush(EmitSessionMessages(w, wire, bodies))
    decreases |bodies|
  {
    if bodies != [] {
      assert EmitSessionMessage(Flush(w), wire, bodies[0]) == Flush(EmitSessionMessage(w, wire, bodies[0]));
      FlushCommutes(EmitSessionMessage(w, wire, bodies[0]), wire, bodies[1..]);
    }
  }

  lemma LiveKeeps(w: Worker, wire: Wire)
    requires WorkerInv(w, wire) && w.run.CreatingSession? && !Ending(w)
    ensures WorkerInv(Flush(w.(session := true, run := Prompting, sessionSeq := w.historyLength)), wire)
  {}

  lemma SessionCreatedKeeps(w: Worker, wire: Wire, repairs: seq<string>)
    requires WorkerInv(w, wire) && w.run.CreatingSession?
    ensures WorkerInv(SessionCreated(w, wire, repairs), wire)
  {
    if !Ending(w) {
      LiveKeeps(w, wire);
      var live := w.(session := true, run := Prompting, sessionSeq := w.historyLength);
      SessionMessagesKeep(Flush(live), wire, repairs);
      FlushCommutes(live, wire, repairs);
    }
  }

  // ---------------------------------------------------------------- runs keep the invariant

  lemma ApplyKeeps(w: Worker, wire: Wire, s: Step, reason: string, report: string)
    requires WorkerInv(w, wire) && Enabled(w, s)
    ensures WorkerInv(Apply(w, wire, s, reason, report), wire)
  {
    match s
    case Inbound(input) => ReceiveKeeps(w, wire, input, reason, report);
    case Interrupted => TerminateKeeps(w, wire, INTERRUPTED, reason);
    case DeadlinePassed => TerminateKeeps(w, wire, TIMED_OUT, reason);
    case FactorySettled(repairs, limitError) =>
      if repairs.Some? {
        SessionCreatedKeeps(w, wire, repairs.value);
      } else {
        RunEndsKeeps(w, wire, CaughtState(w, limitError), reason, report);
      }
    case Happened(event) => OnSessionEventKeeps(w, wire, event, reason);
    case ToolExecutes(call) => AfterBrokerKeeps(w, wire, Executed(w.broker, wire.hash, call), reason);
    case ToolAborts(requestId) => AfterBrokerKeeps(w, wire, ToolBroker.Abort(w.broker, requestId), reason);
    case PromptSettled(ok, limitError) => RunEndsKeeps(w, wire, CaughtState(w, limitError), reason, report);
    case IdleSettled(ok, limitError, failure) =>
      RunEndsKeeps(w, wire, if ok then GetOr(failure, SUCCEEDED) else CaughtState(w, limitError), reason, report);
    case WriteFailed => TerminateKeeps(w, wire, INTERRUPTED, reason);
    case DeliveryFailed => TerminateKeeps(w, wire, FAILED, reason);
    case AbortDone => AbortSettledKeeps(w, wire, report);
    case DiscardDone =>
  }

  lemma {:induction false} RunKeeps(w: Worker, wire: Wire, entries: seq<Entry>)
    requires WorkerInv(w, wire) && CanRun(w, wire, entries)
    ensures WorkerInv(Run(w, wire, entries), wire)
    decreases |entries|
  {
    if entries != [] {
      var e := entries[0];
      ApplyKeeps(w, wire, e.step, e.reason, e.report);
      RunKeeps(Apply(w, wire, e.step, e.reason, e.report), wire, entries[1..]);
    }
  }

  lemma InitialInv(wire: Wire)
    ensures WorkerInv(InitialWorker(), wire)
  {
    InitialOutputInv(wire);
    assert InitialWorker().output.writer.written == [];
    assert Phases(InitialWorker()) && Messages(InitialWorker());
  }

  // ---------------------------------------------------------------- the object

  class AgentWorker {
    const output: BoundedOutput
    var start: Option<OutputLimits>
    var broker: ToolBroker.Broker
    var session: bool
    var run: RunPhase
    var sequence: nat
    var sessionSeq: Option<nat>
    var historyLength: Option<nat>
    var finalizing: bool
    var terminating: bool
    var terminationState: Option<TerminalState>
    var aborting: Option<TerminalState>
    var abortReason: string
    var pendingMessages: seq<UserMessage>
    var pendingMessageBytes: nat
    ghost var accepted: seq<UserMessage>
    ghost var delivered: seq<UserMessage>
    ghost var cause: Option<TerminalState>

    ghost function State(): Worker
      reads this, output, output.writer
    {
      Worker(output.State(), start, broker, session, run, sequence, sessionSeq, historyLength, finalizing, terminating,
        terminationState, aborting, abortReason, pendingMessages, pendingMessageBytes, accepted, delivered, cause)
    }

    ghost predicate Valid()
      reads this, output, output.writer
    {
      output.Valid()
    }

    constructor (output: BoundedOutput)
      requires output.Valid() && output.State() == InitialOutput()
      ensures Valid() && State() == InitialWorker() && this.output == output
    {
      this.output := output;
      start, broker, session, run, sequence := None, ToolBroker.Init(), false, NotStarted, 0;
      abortReason := "";
      sessionSeq, historyLength, terminationState, aborting := None, None, None, None;
      finalizing, terminating := false, false;
      pendingMessages, pendingMessageBytes, accepted, delivered, cause := [], 0, [], [], None;
    }

    /** The broker's `cancelAll`, while the worker is already ending. */
    method CancelAll(reason: string)
      requires Valid() && Ending(State())
      modifies this, output, output.writer
      ensures Valid() && State() == Stopped(old(State()), output.wire, reason)
      decreases 2
    {
      if start.None? {
        return;
      }
      var cancels := Cancellations(broker, reason);
      broker := ToolBroker.CancelAll(broker, reason);
      ghost var before := State();
      for i := 0 to |cancels|
        invariant Valid() && State() == before.(output := output.State())
        invariant EmitQuietly(output.State(), output.wire, cancels[i..])
          == EmitQuietly(before.output, output.wire, cancels)
      {
        EmitOutput(cancels[i], "");
        assert cancels[i..][1..] == cancels[i + 1..];
      }
    }

    method EmitOutput(record: OutRecord, reason: string)
      requires Valid()
      modifies this, output, output.writer
      ensures Valid() && State() == EmitRecord(old(State()), output.wire, record, reason)
      decreases if finalizing || terminating then 1 else 4
    {
      var error := output.EmitRecord(record);
      if error.Some? {
        TerminateRun(if error.value.LimitReached? then LIMIT_EXCEEDED else FAILED, reason);
      }
    }

    /** Up to the point where it waits for the session to abort. */
    method TerminateRun(state: TerminalState, reason: string)
      requires Valid()
      modifies this, output, output.writer
      ensures Valid() && State() == Terminate(old(State()), output.wire, state, reason)
      decreases if finalizing || terminating then 0 else 3
    {
      if finalizing || terminating {
        return;
      }
      MarkTerminating(state, reason);
      CancelAll(reason);
    }

    method MarkTerminating(state: TerminalState, reason: string)
      modifies this
      ensures State() == Terminating(old(State()), state, reason)
    {
      KeepReason(state, reason);
      terminating := true;
      terminationState := Some(state);
    }

    /** What the suspended `#terminate` goes on with. */
    method KeepReason(state: TerminalState, reason: string)
      modifies this
      ensures State()
        == old(State()).(aborting := Some(state), abortReason := reason, cause := Caused(old(State()), state))
    {
      aborting := Some(state);
      abortReason := reason;
      cause := if cause.Some? then cause else Some(state);
    }

    /** The rest of it, once the abort has settled. */
    method Aborted(report: string)
      requires Valid() && aborting.Some?
      modifies this, output, output.writer
      ensures Valid() && State() == AbortSettled(old(State()), output.wire, report)
    {
      var state := aborting.value;
      terminating := false;
      aborting := None;
      FinishRun(state, abortReason, report);
    }

    method FinishRun(state: TerminalState, reason: string, report: string)
      requires Valid()
      modifies this, output, output.writer
      ensures Valid() && State() == Finish(old(State()), output.wire, state, reason, report)
    {
      if finalizing {
        return;
      }
      MarkFinal(state);
      CancelAll(reason);
      var refused := output.WriteTerminal(OutRecord(Terminal(state), 0, report));
    }

    method MarkFinal(state: TerminalState)
      requires Valid()
      modifies this
      ensures Valid() && State() == old(State()).(finalizing := true, cause := Caused(old(State()), state))
    {
      finalizing := true;
      cause := if cause.Some? then cause else Some(state);
    }

    method EmitSessionBody(body: string)
      requires Valid()
      modifies this, output.writer
      ensures Valid() && State() == EmitSessionMessage(old(State()), output.wire, body)
    {
      if sessionSeq.None? {
        return;
      }
      var seqNumber := sessionSeq.value;
      sessionSeq := Some(seqNumber + 1);
      output.EmitSessionRecord(OutRecord(SessionMessage, seqNumber, body));
    }

    method TakeMessage(m: UserMessage) returns (error: Option<InputError>)
      requires Valid()
      modifies this
      ensures Valid() && (State(), error) == AcceptMessage(old(State()), m)
    {
      if session {
        DeliverMessage(m);
        accepted := accepted + [m];
        return None;
      }
      if |pendingMessages| >= MAX_PENDING_MESSAGES || pendingMessageBytes + m.bytes > MAX_PENDING_BYTES {
        return Some(QueueFull);
      }
      pendingMessages := pendingMessages + [m];
      pendingMessageBytes := pendingMessageBytes + m.bytes;
      accepted := accepted + [m];
      error := None;
    }

    /** Hands one message to the session. */
    method DeliverMessage(m: UserMessage)
      requires Valid()
      modifies this
      ensures Valid() && State() == old(State()).(delivered := old(delivered) + [m])
    {
      delivered := delivered + [m];
    }

    method FlushPendingMessages()
      requires Valid()
      modifies this
      ensures Valid() && State() == Flush(old(State()))
    {
      var messages := pendingMessages;
      pendingMessages := [];
      pendingMessageBytes := 0;
      ghost var before := State();
      for i := 0 to |messages|
        invariant Valid() && State() == before.(delivered := before.delivered + messages[..i])
      {
        DeliverMessage(messages[i]);
        Handed(before.delivered, messages, i);
      }
      assert messages[..|messages|] == messages;
    }

    method ReceiveRecord(input: Input, reason: string, report: string) returns (error: Option<InputError>)
      requires Valid()
      modifies this, output, output.writer
      ensures Valid() && (State(), error) == Receive(old(State()), output.wire, input, reason, report)
    {
      error := None;
      if finalizing || terminating || output.terminal {
        return Some(AfterTerminalState);
      }
      if start.None? {
        if !input.StartInput? {
          return Some(NotAStart);
        }
        BeginRun(input, reason, report);
        return;
      }
      match input
      case StartInput(_, _, _, _) =>
        error := Some(DuplicateStart);
      case ToolResultInput(requestId, tooLarge, final, isError) =>
        error := ToolResult(requestId, tooLarge, final, isError, reason);
      case ToolCancelInput(requestId) =>
        var (settled, thrown) := ToolBroker.SettleError(broker, requestId);
        broker := settled;
        error := if thrown.Some? then Some(UnknownTool) else None;
      case MessageInput(m) =>
        error := TakeMessage(m);
      case CancelInput =>
        TerminateRun(CANCELLED, reason);
      case StorageInput =>
    }

    method ToolResult(requestId: string, tooLarge: bool, final: bool, isError: bool, reason: string)
      returns (error: Option<InputError>)
      requires Valid()
      modifies this, output, output.writer
      ensures Valid()
        && (State(), error) == ReceiveResult(old(State()), output.wire, requestId, tooLarge, final, isError, reason)
    {
      var (settled, thrown) := ToolBroker.AcceptResult(broker, requestId, tooLarge, final, isError);
      broker := settled;
      if thrown == Some(ToolBroker.ResultLimit) {
        TerminateRun(LIMIT_EXCEEDED, reason);
        error := None;
      } else {
        error := if thrown.Some? then Some(UnknownTool) else None;
      }
    }

    /** A tool call of the session, and the abort of one. */
    method ExecuteTool(call: ToolCall, reason: string)
      requires Valid()
      modifies this, output, output.writer
      ensures Valid()
        && State() == AfterBroker(old(State()), output.wire, Executed(old(broker), output.wire.hash, call), reason)
    {
      UseBroker(Executed(broker, output.wire.hash, call), reason);
    }

    method AbortTool(requestId: string, reason: string)
      requires Valid()
      modifies this, output, output.writer
      ensures Valid()
        && State() == AfterBroker(old(State()), output.wire, ToolBroker.Abort(old(broker), requestId), reason)
    {
      UseBroker(ToolBroker.Abort(broker, requestId), reason);
    }

    method UseBroker(after: ToolBroker.Broker, reason: string)
      requires Valid()
      modifies this, output, output.writer
      ensures Valid() && State() == AfterBroker(old(State()), output.wire, after, reason)
    {
      var emits := |after.emitted| > |broker.emitted|;
      broker := after;
      if emits {
        EmitOutput(ToolRecord(after.emitted[|after.emitted| - 1]), reason);
      }
    }

    method BeginRun(input: Input, reason: string, report: string)
      requires Valid() && input.StartInput?
      modifies this, output, output.writer
      ensures Valid() && State() == Begin(old(State()), output.wire, input, reason, report)
    {
      start := Some(input.limits);
      var configured := output.ConfigureLimits(input.limits);
      historyLength := input.history;
      run := CreatingSession;
      if input.replayFails {
        RunFailed(input.limitError, reason, report);
      }
    }

    /** The `catch` of `#run`. */
    method RunFailed(limitError: bool, reason: string, report: string)
      requires Valid()
      modifies this, output, output.writer
      ensures Valid()
        && State() == RunEnds(old(State()), output.wire, CaughtState(old(State()), limitError), reason, report)
    {
      run := Over;
      if !finalizing && !terminating {
        FinishRun(if limitError then LIMIT_EXCEEDED else GetOr(terminationState, FAILED), reason, report);
      }
    }

    /** `#run` from the session's creation to its next wait. */
    method SessionReady(repairs: seq<string>)
      requires Valid()
      modifies this, output, output.writer
      ensures Valid() && State() == SessionCreated(old(State()), output.wire, repairs)
    {
      if finalizing || terminating {
        run := Discarding;
        return;
      }
      session := true;
      run := Prompting;
      sessionSeq := historyLength;
      if historyLength.Some? {
        ghost var before := State();
        for i := 0 to |repairs|
          invariant Valid() && EmitSessionMessages(State(), output.wire, repairs[i..])
            == EmitSessionMessages(before, output.wire, repairs)
        {
          EmitSessionBody(repairs[i]);
          assert repairs[i..][1..] == repairs[i + 1..];
        }
      }
      FlushPendingMessages();
    }

    method SessionIdle(failure: Option<TerminalState>, reason: string, report: string)
      requires Valid()
      modifies this, output, output.writer
      ensures Valid() && State() == RunEnds(old(State()), output.wire, GetOr(failure, SUCCEEDED), reason, report)
    {
      run := Over;
      if !finalizing && !terminating {
        FinishRun(GetOr(failure, SUCCEEDED), reason, report);
      }
    }

    method HandleSessionEvent(e: SessionEvent, reason: string)
      requires Valid()
      modifies this, output, output.writer
      ensures Valid() && State() == OnSessionEvent(old(State()), output.wire, e, reason)
    {
      if start.None? || !session || finalizing || terminating {
        return;
      }
      ReportEvent(e, reason);
      if e.usage.Some? {
        EmitNumbered(Usage, e.usage.value, reason);
      }
    }

    /** The message the event completes and what it shows. */
    method ReportEvent(e: SessionEvent, reason: string)
      requires Valid()
      modifies this, output, output.writer
      ensures Valid() && State() == Reported(old(State()), output.wire, e, reason)
    {
      if e.message.Some? {
        EmitSessionBody(e.message.value);
      }
      if e.projected.Some? {
        EmitNumbered(Kind.Event, e.projected.value, reason);
      }
    }

    method EmitNumbered(kind: Kind, body: string, reason: string)
      requires Valid()
      modifies this, output, output.writer
      ensures Valid()
      ensures State() == EmitRecord(old(State()).(sequence := old(sequence) + 1), output.wire,
        OutRecord(kind, old(sequence) + 1, body), reason)
    {
      CountRecord();
      EmitOutput(OutRecord(kind, sequence, body), reason);
    }

    method CountRecord()
      requires Valid()
      modifies this
      ensures Valid() && State() == old(State()).(sequence := old(sequence) + 1)
    {
      sequence := sequence + 1;
    }
  }

  lemma Handed(delivered: seq<UserMessage>, messages: seq<UserMessage>, i: nat)
    requires i < |messages|
    ensures delivered + messages[..i] + [messages[i]] == delivered + messages[..i + 1]
  {}
}
