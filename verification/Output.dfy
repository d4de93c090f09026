/** The bounded output of an agent (apps/agent-runtime/src/output.ts), over the JSON Lines writer. */
module Output {
  import opened Wrappers
  import opened Jsonl
  import ToolBroker

  datatype TerminalState = SUCCEEDED | FAILED | CANCELLED | TIMED_OUT | LIMIT_EXCEEDED | INTERRUPTED

  datatype Kind = Event | Tool(record: ToolBroker.Record) | Usage | SessionMessage | Terminal(state: TerminalState)

  /** `number` is the sequence of an event or usage record and the seq of a session message. */
  datatype OutRecord = OutRecord(kind: Kind, number: nat, body: string)

  /** How records are validated and encoded, the writer's record limit, and the hash that makes request ids. */
  datatype Wire = Wire(encode: OutRecord -> seq<byte>, valid: OutRecord -> bool, maxRecordBytes: nat,
          hash: string -> string)

  function CodecOf(wire: Wire): Codec<OutRecord> {
    Codec(wire.encode, line => BadSchema, wire.valid, (r: OutRecord) => r.kind.Terminal?)
  }

  function Size(wire: Wire, r: OutRecord): nat {
    |wire.encode(r)| + 1
  }

  datatype OutputLimits = OutputLimits(maxEvents: nat, maxOutputBytes: nat, maxEventBytes: nat)

  datatype OutputState = OutputState(limits: OutputLimits, events: nat, outputBytes: nat, terminal: bool,
          writer: Writer<OutRecord>)

  datatype EmitError = EmitAfterTerminal | LimitReached | Refused(error: WriteError)

  function InitialOutput(): OutputState {
    OutputState(OutputLimits(1, 4096, 256), 0, 0, false, Writer(false, false, []))
  }

  /** Limits cannot change after the first emission. */
  predicate CanConfigure(o: OutputState) {
    o.events == 0 && o.outputBytes == 0
  }

  function Configure(o: OutputState, limits: OutputLimits): OutputState {
    if CanConfigure(o) then o.(limits := limits) else o
  }

  function WriteTo(o: OutputState, wire: Wire, r: OutRecord): (OutputState, Option<WriteError>) {
    var (writer, error) := Write(o.writer, CodecOf(wire), wire.maxRecordBytes, r);
    (o.(writer := writer), error)
  }

  function OverLimit(o: OutputState, wire: Wire, r: OutRecord): bool {
    || (r.kind.Event? && (o.events + 1 > o.limits.maxEvents || Size(wire, r) > o.limits.maxEventBytes))
    || o.outputBytes + Size(wire, r) > o.limits.maxOutputBytes
  }

  /** The budgets are charged before the record is written, so a refused record stays charged. */
  function Charge(o: OutputState, wire: Wire, r: OutRecord): OutputState {
    o.(events := o.events + (if r.kind.Event? then 1 else 0), outputBytes := o.outputBytes + Size(wire, r))
  }

  function Emit(o: OutputState, wire: Wire, r: OutRecord): (OutputState, Option<EmitError>) {
    if o.terminal then (o, Some(EmitAfterTerminal))
    else if OverLimit(o, wire, r) then (o, Some(LimitReached))
    else
      var (next, error) := WriteTo(Charge(o, wire, r), wire, r);
      (next, if error.Some? then Some(Refused(error.value)) else None)
  }

  /** Runner state, never charged; a record that cannot be written is skipped. */
  function EmitSession(o: OutputState, wire: Wire, r: OutRecord): OutputState {
    if o.terminal then o else WriteTo(o, wire, r).0
  }

  function EmitTerminal(o: OutputState, wire: Wire, r: OutRecord): (OutputState, Option<EmitError>) {
    if o.terminal then (o, Some(EmitAfterTerminal))
    else
      var (next, error) := WriteTo(o.(terminal := true), wire, r);
      (next, if error.Some? then Some(Refused(error.value)) else None)
  }

  // ---------------------------------------------------------------- what is written

  /** Records that count against the caller's byte budget. */
  predicate IsCaller(r: OutRecord) {
    !r.kind.SessionMessage? && !r.kind.Terminal?
  }

  function EventCount(written: seq<OutRecord>): nat {
    if written == [] then 0
    else EventCount(written[..|written| - 1]) + (if written[|written| - 1].kind.Event? then 1 else 0)
  }

  function CallerBytes(wire: Wire, written: seq<OutRecord>): nat {
    if written == [] then 0
    else
      CallerBytes(wire, written[..|written| - 1])
        + (if IsCaller(written[|written| - 1]) then Size(wire, written[|written| - 1]) else 0)
  }

  /** The written caller records are within the charged budgets, and those within the limits. */
  ghost predicate WithinBudget(o: OutputState, wire: Wire) {
    && EventCount(o.writer.written) <= o.events <= o.limits.maxEvents
    && CallerBytes(wire, o.writer.written) <= o.outputBytes <= o.limits.maxOutputBytes
  }

  /** Every written event is within the size limit; limits change only while there is none. */
  ghost predicate EventsSmall(o: OutputState, wire: Wire) {
    (o.events == 0 ==> EventCount(o.writer.written) == 0)
    && forall r | r in o.writer.written && r.kind.Event? :: Size(wire, r) <= o.limits.maxEventBytes
  }

  /** At most one terminal record is written, nothing follows it, and only `EmitTerminal` writes it. */
  ghost predicate TerminalLast(o: OutputState, wire: Wire) {
    && WriterInv(o.writer, CodecOf(wire), wire.maxRecordBytes)
    && (o.writer.terminalWritten ==> o.terminal)
  }

  ghost predicate OutputInv(o: OutputState, wire: Wire) {
    WithinBudget(o, wire) && EventsSmall(o, wire) && TerminalLast(o, wire)
  }

  lemma CountsAppend(wire: Wire, written: seq<OutRecord>, r: OutRecord)
    ensures EventCount(written + [r]) == EventCount(written) + (if r.kind.Event? then 1 else 0)
    ensures CallerBytes(wire, written + [r]) == CallerBytes(wire, written) + (if IsCaller(r) then Size(wire, r) else 0)
  {
    assert (written + [r])[..|written|] == written;
  }

  lemma NoEvents(written: seq<OutRecord>)
    requires EventCount(written) == 0
    ensures forall r | r in written :: !r.kind.Event?
  {
    if written != [] {
      NoEvents(written[..|written| - 1]);
    }
  }

  lemma InitialOutputInv(wire: Wire)
    ensures OutputInv(InitialOutput(), wire)
  {
    assert InitialOutput().writer.written == [];
  }

  lemma ConfigureInv(o: OutputState, wire: Wire, limits: OutputLimits)
    requires OutputInv(o, wire)
    ensures OutputInv(Configure(o, limits), wire)
  {
    if CanConfigure(o) {
      NoEvents(o.writer.written);
    }
  }

  lemma EmitBudget(o: OutputState, wire: Wire, r: OutRecord)
    requires WithinBudget(o, wire) && IsCaller(r)
    ensures WithinBudget(Emit(o, wire, r).0, wire)
  {
    CountsAppend(wire, o.writer.written, r);
  }

  lemma EmitSmall(o: OutputState, wire: Wire, r: OutRecord)
    requires EventsSmall(o, wire)
    ensures EventsSmall(Emit(o, wire, r).0, wire)
  {
    CountsAppend(wire, o.writer.written, r);
  }

  lemma EmitKeeps(o: OutputState, wire: Wire, r: OutRecord)
    requires OutputInv(o, wire) && IsCaller(r)
    ensures OutputInv(Emit(o, wire, r).0, wire)
  {
    EmitBudget(o, wire, r);
    EmitSmall(o, wire, r);
    EmitTerminalLast(o, wire, r);
  }

  lemma EmitTerminalLast(o: OutputState, wire: Wire, r: OutRecord)
    requires TerminalLast(o, wire) && !r.kind.Terminal?
    ensures TerminalLast(Emit(o, wire, r).0, wire) && TerminalLast(EmitSession(o, wire, r), wire)
  {}

  /** An emission reports whether its record was written; after the terminal one nothing is. */
  lemma EmissionTells(o: OutputState, wire: Wire, r: OutRecord)
    ensures var (next, error) := Emit(o, wire, r);
      && next.writer.written == o.writer.written + (if error.None? then [r] else [])
      && (error == Some(EmitAfterTerminal) <==> o.terminal)
      && (error == Some(LimitReached) <==> !o.terminal && OverLimit(o, wire, r))
      && (o.terminal ==> next == o && EmitSession(o, wire, r) == o)
  {
    assert o.writer.written + [] == o.writer.written;
  }

  /** There is one terminal emission: it reports whether its record was written, and any other is refused. */
  lemma TerminalTells(o: OutputState, wire: Wire, r: OutRecord, other: OutRecord)
    requires !o.terminal
    ensures var (next, error) := EmitTerminal(o, wire, r);
      && next.terminal && next.writer.written == o.writer.written + (if error.None? then [r] else [])
      && error != Some(EmitAfterTerminal)
      && EmitTerminal(next, wire, other) == (next, Some(EmitAfterTerminal))
  {
    assert o.writer.written + [] == o.writer.written;
  }

  lemma EmitSessionKeeps(o: OutputState, wire: Wire, r: OutRecord)
    requires OutputInv(o, wire) && r.kind.SessionMessage?
    ensures OutputInv(EmitSession(o, wire, r), wire)
    ensures var next := EmitSession(o, wire, r);
      && next == o.(writer := next.writer)
      && CallerBytes(wire, next.writer.written) == CallerBytes(wire, o.writer.written)
      && EventCount(next.writer.written) == EventCount(o.writer.written)
  {
    CountsAppend(wire, o.writer.written, r);
    EmitTerminalLast(o, wire, r);
  }

  lemma EmitTerminalInv(o: OutputState, wire: Wire, r: OutRecord)
    requires OutputInv(o, wire) && r.kind.Terminal?
    ensures OutputInv(EmitTerminal(o, wire, r).0, wire)
  {
    CountsAppend(wire, o.writer.written, r);
  }

  // ---------------------------------------------------------------- the object

  class BoundedOutput {
    const wire: Wire
    const writer: JsonlWriter<OutRecord>
    var limits: OutputLimits
    var events: nat
    var outputBytes: nat
    var terminal: bool

    ghost function State(): OutputState
      reads this, writer
    {
      OutputState(limits, events, outputBytes, terminal, writer.State())
    }

    ghost predicate Valid()
      reads this, writer
    {
      && writer.Valid() && writer.codec == CodecOf(wire) && writer.maxRecordBytes == wire.maxRecordBytes
    }

    constructor (wire: Wire, writer: JsonlWriter<OutRecord>)
      requires writer.Valid() && writer.codec == CodecOf(wire) && writer.maxRecordBytes == wire.maxRecordBytes
      requires writer.State() == Writer(false, false, [])
      ensures Valid() && State() == InitialOutput() && this.writer == writer && this.wire == wire
    {
      this.wire := wire;
      this.writer := writer;
      limits, events, outputBytes, terminal := OutputLimits(1, 4096, 256), 0, 0, false;
    }

    method ConfigureLimits(limits: OutputLimits) returns (ok: bool)
      modifies this
      ensures ok == CanConfigure(old(State())) && State() == Configure(old(State()), limits)
    {
      if events != 0 || outputBytes != 0 {
        return false;
      }
      this.limits := limits;
      ok := true;
    }

    method EmitRecord(record: OutRecord) returns (error: Option<EmitError>)
      requires Valid()
      modifies this, writer
      ensures Valid() && (State(), error) == Emit(old(State()), wire, record)
    {
      if terminal {
        return Some(EmitAfterTerminal);
      }
      var bytes := |wire.encode(record)| + 1;
      if record.kind.Event? && events + 1 > limits.maxEvents {
        return Some(LimitReached);
      }
      if record.kind.Event? && bytes > limits.maxEventBytes {
        return Some(LimitReached);
      }
      if outputBytes + bytes > limits.maxOutputBytes {
        return Some(LimitReached);
      }
      if record.kind.Event? {
        events := events + 1;
      }
      outputBytes := outputBytes + bytes;
      var refused := writer.WriteRecord(record);
      error := if refused.Some? then Some(Refused(refused.value)) else None;
    }

    method EmitSessionRecord(record: OutRecord)
      requires Valid()
      modifies writer
      ensures Valid() && State() == EmitSession(old(State()), wire, record)
    {
      if terminal {
        return;
      }
      var refused := writer.WriteRecord(record);
    }

    method WriteTerminal(record: OutRecord) returns (error: Option<EmitError>)
      requires Valid()
      modifies this, writer
      ensures Valid() && (State(), error) == EmitTerminal(old(State()), wire, record)
    {
      if terminal {
        return Some(EmitAfterTerminal);
      }
      terminal := true;
      var refused := writer.WriteRecord(record);
      error := if refused.Some? then Some(Refused(refused.value)) else None;
    }
  }
}
