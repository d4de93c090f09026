/**
 * The JSON Lines framing of the agent protocol (apps/agent-runtime/src/jsonl.ts).
 *
 * Decoding a line (UTF-8, JSON and the record schema) and encoding a record are functions of the
 * codec. A queue also remembers, as history, the lines it has accepted.
 */
module Jsonl {
  import opened Wrappers

  type byte = b: int | 0 <= b < 256

  const LF: byte := 10
  const CR: byte := 13

  datatype Decoded<+R> = BadUtf8 | BadJson | BadSchema | Record(record: R)

  datatype ProtocolError =
    | InputClosed
    | BufferOverflow
    | RecordTooLong
    | EmptyRecord
    | CarriageReturn
    | InvalidUtf8
    | InvalidJson
    | SchemaMismatch
    | QueueOverflow
    | Unterminated

  datatype Limits = Limits(maxRecordBytes: nat, maxQueuedRecords: nat, maxQueuedBytes: nat)

  datatype Queued<+R> = Queued(record: R, bytes: nat)

  datatype Queue<+R> = Queue(buffer: seq<byte>, records: seq<Queued<R>>, queuedBytes: int, ended: bool,
          accepted: seq<seq<byte>>)

  function Empty<R>(): Queue<R> {
    Queue([], [], 0, false, [])
  }

  /** The first newline, or the length when there is none. */
  function IndexOfLf(bytes: seq<byte>): (i: nat)
    ensures i <= |bytes| && (i < |bytes| ==> bytes[i] == LF)
    ensures forall j | 0 <= j < i :: bytes[j] != LF
  {
    if bytes == [] || bytes[0] == LF then 0 else 1 + IndexOfLf(bytes[1..])
  }

  function Enqueue<R>(q: Queue<R>, limits: Limits, line: seq<byte>, record: R): (r: (Queue<R>, Option<ProtocolError>))
    ensures r.0.buffer == q.buffer && r.0.ended == q.ended
  {
    var bytes := |line| + 1;
    if |q.records| >= limits.maxQueuedRecords || q.queuedBytes + bytes > limits.maxQueuedBytes then
      (q, Some(QueueOverflow))
    else
      (q.(records := q.records + [Queued(record, bytes)], queuedBytes := q.queuedBytes + bytes,
        accepted := q.accepted + [line]), None)
  }

  function ParseLine<R>(q: Queue<R>, limits: Limits, decode: seq<byte> -> Decoded<R>,
          line: seq<byte>): (r: (Queue<R>, Option<ProtocolError>))
    ensures r.0.buffer == q.buffer && r.0.ended == q.ended
  {
    if line == [] then (q, Some(EmptyRecord))
    else if |line| > limits.maxRecordBytes then (q, Some(RecordTooLong))
    else if CR in line then (q, Some(CarriageReturn))
    else match decode(line)
      case BadUtf8 => (q, Some(InvalidUtf8))
      case BadJson => (q, Some(InvalidJson))
      case BadSchema => (q, Some(SchemaMismatch))
      case Record(record) => Enqueue(q, limits, line, record)
  }

  /** Cuts the first line off the buffer and parses it. */
  function TakeLine<R>(q: Queue<R>, limits: Limits,
          decode: seq<byte> -> Decoded<R>): (r: (Queue<R>, Option<ProtocolError>))
    requires IndexOfLf(q.buffer) < |q.buffer|
    ensures r.0.buffer == q.buffer[IndexOfLf(q.buffer) + 1..] && r.0.ended == q.ended
  {
    var n := IndexOfLf(q.buffer);
    ParseLine(q.(buffer := q.buffer[n + 1..]), limits, decode, q.buffer[..n])
  }

  /** Parses every complete line of the buffer, up to the first that fails. */
  function Drain<R>(q: Queue<R>, limits: Limits, decode: seq<byte> -> Decoded<R>): (Queue<R>, Option<ProtocolError>)
    decreases |q.buffer|
  {
    if IndexOfLf(q.buffer) == |q.buffer| then
      (q, if |q.buffer| > limits.maxRecordBytes then Some(RecordTooLong) else None)
    else
      var (parsed, error) := TakeLine(q, limits, decode);
      if error.Some? then (parsed, error) else Drain(parsed, limits, decode)
  }

  function Feed<R>(q: Queue<R>, limits: Limits, decode: seq<byte> -> Decoded<R>,
          chunk: seq<byte>): (Queue<R>, Option<ProtocolError>) {
    if q.ended then (q, Some(InputClosed))
    else
      var grown := q.(buffer := q.buffer + chunk);
      if |grown.buffer| > limits.maxQueuedBytes + limits.maxRecordBytes then (grown, Some(BufferOverflow))
      else Drain(grown, limits, decode)
  }

  function Shift<R>(q: Queue<R>): (Queue<R>, Option<R>) {
    if q.records == [] then (q, None)
    else (q.(records := q.records[1..], queuedBytes := q.queuedBytes - q.records[0].bytes), Some(q.records[0].record))
  }

  function End<R>(q: Queue<R>): (Queue<R>, Option<ProtocolError>) {
    if q.ended then (q, None) else (q.(ended := true), if q.buffer != [] then Some(Unterminated) else None)
  }

  // ---------------------------------------------------------------- what a queue always holds

  function Join(lines: seq<seq<byte>>): seq<byte> {
    if lines == [] then [] else Join(lines[..|lines| - 1]) + lines[|lines| - 1] + [LF]
  }

  function SumBytes<R>(records: seq<Queued<R>>): nat {
    if records == [] then 0 else SumBytes(records[..|records| - 1]) + records[|records| - 1].bytes
  }

  ghost predicate GoodLine(line: seq<byte>, limits: Limits) {
    line != [] && |line| <= limits.maxRecordBytes && CR !in line && LF !in line
  }

  ghost predicate DecodedLine<R>(line: seq<byte>, r: Queued<R>, decode: seq<byte> -> Decoded<R>) {
    decode(line) == Record(r.record) && r.bytes == |line| + 1
  }

  /** The queue keeps its record and byte budgets. */
  ghost predicate WithinBudget<R>(q: Queue<R>, limits: Limits) {
    |q.records| <= limits.maxQueuedRecords && q.queuedBytes == SumBytes(q.records) <= limits.maxQueuedBytes
  }

  /** Its records are the last lines it accepted, decoded, and every accepted line was well formed. */
  ghost predicate HoldsLines<R>(q: Queue<R>, limits: Limits, decode: seq<byte> -> Decoded<R>) {
    && |q.records| <= |q.accepted|
    && (forall i | 0 <= i < |q.records| ::
         DecodedLine(q.accepted[|q.accepted| - |q.records| + i], q.records[i], decode))
    && (forall line | line in q.accepted :: GoodLine(line, limits))
  }

  ghost predicate QueueInv<R>(q: Queue<R>, limits: Limits, decode: seq<byte> -> Decoded<R>) {
    WithinBudget(q, limits) && HoldsLines(q, limits, decode)
  }

  lemma SumBytesAppend<R>(records: seq<Queued<R>>, r: Queued<R>)
    ensures SumBytes(records + [r]) == SumBytes(records) + r.bytes
  {
    assert (records + [r])[..|records|] == records;
  }

  lemma {:induction false} SumBytesHead<R>(records: seq<Queued<R>>)
    requires records != []
    ensures SumBytes(records) == records[0].bytes + SumBytes(records[1..])
  {
    if |records| > 1 {
      SumBytesHead(records[..|records| - 1]);
      assert records[1..][..|records| - 2] == records[..|records| - 1][1..];
    } else {
      assert records[..0] == [] && records[1..] == [];
    }
  }

  lemma EnqueueInv<R>(q: Queue<R>, limits: Limits, decode: seq<byte> -> Decoded<R>, line: seq<byte>, record: R)
    requires QueueInv(q, limits, decode) && GoodLine(line, limits) && decode(line) == Record(record)
    ensures QueueInv(Enqueue(q, limits, line, record).0, limits, decode)
  {
    SumBytesAppend(q.records, Queued(record, |line| + 1));
    EnqueueHoldsLines(q, limits, decode, line, record);
  }

  lemma EnqueueHoldsLines<R>(q: Queue<R>, limits: Limits, decode: seq<byte> -> Decoded<R>, line: seq<byte>, record: R)
    requires HoldsLines(q, limits, decode) && GoodLine(line, limits) && decode(line) == Record(record)
    ensures HoldsLines(Enqueue(q, limits, line, record).0, limits, decode)
  {
    var d := Enqueue(q, limits, line, record).0;
    if d != q {
      forall i | 0 <= i < |d.records|
        ensures DecodedLine(d.accepted[|d.accepted| - |d.records| + i], d.records[i], decode) {
        if i < |q.records| {
          assert d.accepted[|d.accepted| - |d.records| + i] == q.accepted[|q.accepted| - |q.records| + i];
        }
      }
    }
  }

  lemma ParseLineInv<R>(q: Queue<R>, limits: Limits, decode: seq<byte> -> Decoded<R>, line: seq<byte>)
    requires QueueInv(q, limits, decode) && LF !in line
    ensures QueueInv(ParseLine(q, limits, decode, line).0, limits, decode)
  {
    if GoodLine(line, limits) && decode(line).Record? {
      EnqueueInv(q, limits, decode, line, decode(line).record);
    }
  }

  lemma BufferIsFree<R>(q: Queue<R>, limits: Limits, decode: seq<byte> -> Decoded<R>, buffer: seq<byte>)
    requires QueueInv(q, limits, decode)
    ensures QueueInv(q.(buffer := buffer), limits, decode)
  {}

  lemma {:induction false} DrainInv<R>(q: Queue<R>, limits: Limits, decode: seq<byte> -> Decoded<R>)
    requires QueueInv(q, limits, decode)
    ensures QueueInv(Drain(q, limits, decode).0, limits, decode)
    decreases |q.buffer|
  {
    var n := IndexOfLf(q.buffer);
    if n < |q.buffer| {
      BufferIsFree(q, limits, decode, q.buffer[n + 1..]);
      ParseLineInv(q.(buffer := q.buffer[n + 1..]), limits, decode, q.buffer[..n]);
      var (parsed, error) := TakeLine(q, limits, decode);
      if error.None? {
        DrainInv(parsed, limits, decode);
      }
    }
  }

  /** Every byte a queue has accepted or still buffers. */
  function Bytes<R>(q: Queue<R>): seq<byte> {
    Join(q.accepted) + q.buffer
  }

  lemma JoinAppend(lines: seq<seq<byte>>, buffer: seq<byte>, n: nat)
    requires n < |buffer| && buffer[n] == LF
    ensures Join(lines + [buffer[..n]]) + buffer[n + 1..] == Join(lines) + buffer
  {
    assert (lines + [buffer[..n]])[..|lines|] == lines;
    assert buffer == buffer[..n] + [LF] + buffer[n + 1..];
  }

  lemma TakeLineConserves<R>(q: Queue<R>, limits: Limits, decode: seq<byte> -> Decoded<R>)
    requires IndexOfLf(q.buffer) < |q.buffer| && TakeLine(q, limits, decode).1.None?
    ensures Bytes(TakeLine(q, limits, decode).0) == Bytes(q)
  {
    JoinAppend(q.accepted, q.buffer, IndexOfLf(q.buffer));
  }

  /** A drain loses no byte: what it accepted, with its newlines, and what it keeps are what it was given. */
  lemma {:induction false} DrainConserves<R>(q: Queue<R>, limits: Limits, decode: seq<byte> -> Decoded<R>)
    requires Drain(q, limits, decode).1.None?
    ensures Bytes(Drain(q, limits, decode).0) == Bytes(q)
    decreases |q.buffer|
  {
    if IndexOfLf(q.buffer) < |q.buffer| {
      TakeLineConserves(q, limits, decode);
      DrainConserves(TakeLine(q, limits, decode).0, limits, decode);
    }
  }

  lemma FeedConserves<R>(q: Queue<R>, limits: Limits, decode: seq<byte> -> Decoded<R>, chunk: seq<byte>)
    requires QueueInv(q, limits, decode)
    ensures QueueInv(Feed(q, limits, decode, chunk).0, limits, decode)
    ensures Feed(q, limits, decode, chunk).1.None? ==> Bytes(Feed(q, limits, decode, chunk).0) == Bytes(q) + chunk
  {
    FeedInv(q, limits, decode, chunk);
    var grown := q.(buffer := q.buffer + chunk);
    if Drain(grown, limits, decode).1.None? {
      DrainConserves(grown, limits, decode);
      Reassociate(Join(q.accepted), q.buffer, chunk);
    }
  }

  lemma FeedInv<R>(q: Queue<R>, limits: Limits, decode: seq<byte> -> Decoded<R>, chunk: seq<byte>)
    requires QueueInv(q, limits, decode)
    ensures QueueInv(Feed(q, limits, decode, chunk).0, limits, decode)
  {
    BufferIsFree(q, limits, decode, q.buffer + chunk);
    DrainInv(q.(buffer := q.buffer + chunk), limits, decode);
  }

  lemma Reassociate<T>(a: seq<T>, b: seq<T>, c: seq<T>)
    ensures (a + b) + c == a + (b + c)
  {}

  lemma ShiftInv<R>(q: Queue<R>, limits: Limits, decode: seq<byte> -> Decoded<R>)
    requires QueueInv(q, limits, decode)
    ensures QueueInv(Shift(q).0, limits, decode)
    ensures Bytes(Shift(q).0) == Bytes(q)
  {
    if q.records != [] {
      SumBytesHead(q.records);
      var d := Shift(q).0;
      forall i | 0 <= i < |d.records|
        ensures DecodedLine(d.accepted[|d.accepted| - |d.records| + i], d.records[i], decode) {
        assert d.records[i] == q.records[i + 1];
        assert DecodedLine(q.accepted[|q.accepted| - |q.records| + (i + 1)], q.records[i + 1], decode);
      }
    }
  }

  // ---------------------------------------------------------------- the writer and whole runs

  /** The codec of one record type: `valid` is its schema, `terminal` marks the records that end the output. */
  datatype Codec<!R> = Codec(encode: R -> seq<byte>, decode: seq<byte> -> Decoded<R>, valid: R -> bool,
          terminal: R -> bool)

  datatype Writer<+R> = Writer(closed: bool, terminalWritten: bool, written: seq<R>)

  datatype WriteError = OutputClosed | DuplicateTerminal | AfterTerminal | InvalidRecord | OutputRecordTooLong

  /** A terminal record that turns out too long is not written, yet counts as the terminal. */
  function Write<R>(w: Writer<R>, codec: Codec<R>, maxRecordBytes: nat, record: R): (Writer<R>, Option<WriteError>) {
    if w.closed then (w, Some(OutputClosed))
    else if w.terminalWritten then (w, Some(if codec.terminal(record) then DuplicateTerminal else AfterTerminal))
    else if !codec.valid(record) then (w, Some(InvalidRecord))
    else
      var marked := w.(terminalWritten := codec.terminal(record));
      if |codec.encode(record)| + 1 > maxRecordBytes then (marked, Some(OutputRecordTooLong))
      else (marked.(written := w.written + [record]), None)
  }

  /** Everything a writer has put out: the encoded records, a newline after each. */
  function Stream<R>(codec: Codec<R>, records: seq<R>): seq<byte> {
    if records == [] then [] else codec.encode(records[0]) + [LF] + Stream(codec, records[1..])
  }

  function WriteAll<R>(w: Writer<R>, codec: Codec<R>, maxRecordBytes: nat, records: seq<R>): Writer<R>
    decreases |records|
  {
    if records == [] then w
    else WriteAll(Write(w, codec, maxRecordBytes, records[0]).0, codec, maxRecordBytes, records[1..])
  }

  /** Written records fit; at most one is a terminal, nothing follows it, and then nothing more is taken. */
  ghost predicate WriterInv<R>(w: Writer<R>, codec: Codec<R>, maxRecordBytes: nat) {
    && (forall r | r in w.written :: codec.valid(r) && |codec.encode(r)| + 1 <= maxRecordBytes)
    && (forall i | 0 <= i < |w.written| && codec.terminal(w.written[i]) :: i == |w.written| - 1 && w.terminalWritten)
  }

  lemma {:induction false} WriterKeepsInv<R>(w: Writer<R>, codec: Codec<R>, maxRecordBytes: nat, records: seq<R>)
    requires WriterInv(w, codec, maxRecordBytes)
    ensures WriterInv(WriteAll(w, codec, maxRecordBytes, records), codec, maxRecordBytes)
    decreases |records|
  {
    if records != [] {
      WriterKeepsInv(Write(w, codec, maxRecordBytes, records[0]).0, codec, maxRecordBytes, records[1..]);
    }
  }

  // ---------------------------------------------------------------- the objects

  class JsonlRecordQueue<R(0)> {
    const limits: Limits
    const decode: seq<byte> -> Decoded<R>
    var buffer: seq<byte>
    var records: seq<Queued<R>>
    var queuedBytes: int
    var ended: bool
    ghost var accepted: seq<seq<byte>>

    ghost function State(): Queue<R>
      reads this
    {
      Queue(buffer, records, queuedBytes, ended, accepted)
    }

    constructor (limits: Limits, decode: seq<byte> -> Decoded<R>)
      ensures State() == Empty() && this.limits == limits && this.decode == decode
      ensures QueueInv(State(), limits, decode)
    {
      this.limits := limits;
      this.decode := decode;
      buffer, records, queuedBytes, ended, accepted := [], [], 0, false, [];
    }

    method ParseOneLine(line: seq<byte>) returns (error: Option<ProtocolError>)
      modifies this
      ensures (State(), error) == ParseLine(old(State()), limits, decode, line)
    {
      if line == [] {
        return Some(EmptyRecord);
      }
      if |line| > limits.maxRecordBytes {
        return Some(RecordTooLong);
      }
      if CR in line {
        return Some(CarriageReturn);
      }
      var parsed := decode(line);
      if parsed.BadUtf8? {
        return Some(InvalidUtf8);
      }
      if parsed.BadJson? {
        return Some(InvalidJson);
      }
      if parsed.BadSchema? {
        return Some(SchemaMismatch);
      }
      var bytes := |line| + 1;
      if |records| >= limits.maxQueuedRecords || queuedBytes + bytes > limits.maxQueuedBytes {
        return Some(QueueOverflow);
      }
      records := records + [Queued(parsed.record, bytes)];
      queuedBytes := queuedBytes + bytes;
      accepted := accepted + [line];
      error := None;
    }

    method FeedChunk(chunk: seq<byte>) returns (error: Option<ProtocolError>)
      requires QueueInv(State(), limits, decode)
      modifies this
      ensures (State(), error) == Feed(old(State()), limits, decode, chunk)
      ensures QueueInv(State(), limits, decode)
    {
      FeedInv(State(), limits, decode, chunk);
      if ended {
        return Some(InputClosed);
      }
      buffer := if |buffer| == 0 then chunk else buffer + chunk;
      assert buffer == old(buffer) + chunk;
      if |buffer| > limits.maxQueuedBytes + limits.maxRecordBytes {
        return Some(BufferOverflow);
      }
      error := DrainBuffer();
    }

    /** Takes every whole line off the buffer. */
    method DrainBuffer() returns (error: Option<ProtocolError>)
      modifies this
      ensures (State(), error) == Drain(old(State()), limits, decode)
    {
      while true
        invariant Drain(State(), limits, decode) == Drain(old(State()), limits, decode)
        decreases |buffer|
      {
        var newline := IndexOfLf(buffer);
        if newline == |buffer| {
          if |buffer| > limits.maxRecordBytes {
            return Some(RecordTooLong);
          }
          return None;
        }
        var line := buffer[..newline];
        buffer := buffer[newline + 1..];
        error := ParseOneLine(line);
        if error.Some? {
          return;
        }
      }
    }

    method ShiftRecord() returns (record: Option<R>)
      requires QueueInv(State(), limits, decode)
      modifies this
      ensures (State(), record) == Shift(old(State()))
      ensures QueueInv(State(), limits, decode)
    {
      ShiftInv(State(), limits, decode);
      if |records| == 0 {
        return None;
      }
      var queued := records[0];
      records := records[1..];
      queuedBytes := queuedBytes - queued.bytes;
      record := Some(queued.record);
    }

    method EndInput() returns (error: Option<ProtocolError>)
      modifies this
      ensures (State(), error) == End(old(State()))
    {
      if ended {
        return None;
      }
      ended := true;
      error := if |buffer| != 0 then Some(Unterminated) else None;
    }
  }

  lemma {:induction false} StreamAppend<R>(codec: Codec<R>, records: seq<R>, r: R)
    ensures Stream(codec, records + [r]) == Stream(codec, records) + codec.encode(r) + [LF]
  {
    if records == [] {
      assert [] + [r] == [r] && [r][1..] == [];
    } else {
      StreamAppend(codec, records[1..], r);
      assert (records + [r])[1..] == records[1..] + [r];
    }
  }

  /** `output` is everything handed to the stream so far; the promise chain hands the records over in order. */
  class JsonlWriter<!R> {
    const codec: Codec<R>
    const maxRecordBytes: nat
    var closed: bool
    var terminalWritten: bool
    var output: seq<byte>
    ghost var written: seq<R>

    ghost function State(): Writer<R>
      reads this
    {
      Writer(closed, terminalWritten, written)
    }

    ghost predicate Valid()
      reads this
    {
      output == Stream(codec, written) && WriterInv(State(), codec, maxRecordBytes)
    }

    constructor (codec: Codec<R>, maxRecordBytes: nat)
      ensures State() == Writer(false, false, []) && Valid()
      ensures this.codec == codec && this.maxRecordBytes == maxRecordBytes
    {
      this.codec := codec;
      this.maxRecordBytes := maxRecordBytes;
      closed, terminalWritten, output, written := false, false, [], [];
    }

    method WriteRecord(record: R) returns (error: Option<WriteError>)
      requires Valid()
      modifies this
      ensures (State(), error) == Write(old(State()), codec, maxRecordBytes, record)
      ensures Valid()
    {
      if closed {
        return Some(OutputClosed);
      }
      if terminalWritten {
        if codec.terminal(record) {
          return Some(DuplicateTerminal);
        }
        return Some(AfterTerminal);
      }
      if !codec.valid(record) {
        return Some(InvalidRecord);
      }
      if codec.terminal(record) {
        terminalWritten := true;
      }
      var encoded := codec.encode(record) + [LF];
      if |encoded| > maxRecordBytes {
        return Some(OutputRecordTooLong);
      }
      StreamAppend(codec, written, record);
      output := output + encoded;
      written := written + [record];
      error := None;
    }

    method Close()
      requires Valid()
      modifies this
      ensures State() == old(State()).(closed := true) && Valid()
    {
      closed := true;
    }
  }
}
