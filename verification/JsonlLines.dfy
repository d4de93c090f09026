/** Which lines a reader takes, and which records a writer writes (apps/agent-runtime/src/jsonl.ts). */
module JsonlLines {
  import opened Wrappers
  import opened Jsonl

  // ---------------------------------------------------------------- one line

  /** A line that can be taken: neither empty nor too long, without a carriage return, and a record. */
  predicate IsGood<R>(line: seq<byte>, limits: Limits, decode: seq<byte> -> Decoded<R>) {
    line != [] && |line| <= limits.maxRecordBytes && CR !in line && decode(line).Record?
  }

  predicate HasPlace<R>(q: Queue<R>, limits: Limits, line: seq<byte>) {
    && |q.records| + 1 <= limits.maxQueuedRecords && q.queuedBytes + |line| + 1 <= limits.maxQueuedBytes
    && |line| + 1 <= limits.maxQueuedBytes + limits.maxRecordBytes
  }

  /** What is wrong with a line that is refused with this error. */
  predicate IsFault<R>(e: ProtocolError, q: Queue<R>, limits: Limits, decode: seq<byte> -> Decoded<R>,
          line: seq<byte>)
  {
    match e
    case EmptyRecord => line == []
    case RecordTooLong => |line| > limits.maxRecordBytes
    case CarriageReturn => CR in line
    case InvalidUtf8 => decode(line).BadUtf8?
    case InvalidJson => decode(line).BadJson?
    case SchemaMismatch => decode(line).BadSchema?
    case QueueOverflow =>
      |q.records| + 1 > limits.maxQueuedRecords || q.queuedBytes + |line| + 1 > limits.maxQueuedBytes
    case BufferOverflow => |line| + 1 > limits.maxQueuedBytes + limits.maxRecordBytes
    case InputClosed => q.ended
    case Unterminated => false
  }

  lemma FirstNewline(line: seq<byte>)
    requires LF !in line
    ensures IndexOfLf(line + [LF]) == |line| && IndexOfLf(line) == |line|
  {
    assert (line + [LF])[|line|] == LF;
    assert forall i | 0 <= i < |line| :: (line + [LF])[i] == line[i];
  }

  /**
   * The chunk that completes a line has it taken exactly when the input has not ended, the line is good and there is
   * place for it; then the record is queued last, with its size, and the line leaves the buffer. Otherwise the error
   * is one of what is wrong with it.
   */
  lemma LineIsTakenIff<R>(q: Queue<R>, limits: Limits, decode: seq<byte> -> Decoded<R>, line: seq<byte>,
          chunk: seq<byte>)
    requires LF !in line && q.buffer + chunk == line + [LF]
    ensures var (next, error) := Feed(q, limits, decode, chunk);
      && (error.None? <==> !q.ended && IsGood(line, limits, decode) && HasPlace(q, limits, line))
      && (error.None? ==>
           && next.records == q.records + [Queued(decode(line).record, |line| + 1)]
           && next.queuedBytes == q.queuedBytes + |line| + 1 && next.buffer == [] && !next.ended)
      && (error.Some? ==> IsFault(error.value, q, limits, decode, line) && next.records == q.records)
  {
    FirstNewline(line);
    var grown := q.(buffer := q.buffer + chunk);
    assert grown.buffer == line + [LF];
    assert grown.buffer[..|line|] == line && grown.buffer[|line| + 1..] == [];
    var (parsed, fault) := TakeLine(grown, limits, decode);
    assert parsed.buffer == [] && IndexOfLf(parsed.buffer) == 0;
    assert Drain(parsed, limits, decode) == (parsed, None);
    assert Drain(grown, limits, decode) == (parsed, fault);
  }

  /** A chunk that completes no line stays in the buffer, unless the line it goes on with is too long already. */
  lemma PartIsKeptIff<R>(q: Queue<R>, limits: Limits, decode: seq<byte> -> Decoded<R>, chunk: seq<byte>)
    requires LF !in q.buffer + chunk && !q.ended
    ensures var (next, error) := Feed(q, limits, decode, chunk);
      && (error.None? <==> |q.buffer + chunk| <= limits.maxRecordBytes)
      && next == q.(buffer := q.buffer + chunk)
  {
    assert IndexOfLf(q.buffer + chunk) == |q.buffer + chunk|;
  }

  /** The input ends once; an end within a line is reported, and nothing is taken in after it. */
  lemma EndTells<R>(q: Queue<R>, limits: Limits, decode: seq<byte> -> Decoded<R>, chunk: seq<byte>)
    requires !q.ended
    ensures var (ended, error) := End(q);
      && (error == if q.buffer == [] then None else Some(Unterminated))
      && ended.ended && ended.records == q.records && ended.queuedBytes == q.queuedBytes
      && End(ended) == (ended, None)
      && Feed(ended, limits, decode, chunk) == (ended, Some(InputClosed))
  {}

  // ---------------------------------------------------------------- what is written

  /** A writer tells whether it wrote a record, and why it did not. */
  lemma WriteTells<R>(w: Writer<R>, codec: Codec<R>, maxRecordBytes: nat, r: R)
    ensures var (next, error) := Write(w, codec, maxRecordBytes, r);
      && (error.None? <==> !w.closed && !w.terminalWritten && Fits(codec, maxRecordBytes, r))
      && next.written == w.written + (if error.None? then [r] else [])
      && (error == Some(OutputClosed) <==> w.closed)
      && (error == Some(DuplicateTerminal) <==> !w.closed && w.terminalWritten && codec.terminal(r))
      && (error == Some(AfterTerminal) <==> !w.closed && w.terminalWritten && !codec.terminal(r))
      && (error == Some(InvalidRecord) <==> !w.closed && !w.terminalWritten && !codec.valid(r))
      && (next.terminalWritten <==>
            w.terminalWritten || (!w.closed && codec.valid(r) && codec.terminal(r)))
  {}

  /** A record that the schema takes and that fits. */
  predicate Fits<R>(codec: Codec<R>, maxRecordBytes: nat, r: R) {
    codec.valid(r) && |codec.encode(r)| + 1 <= maxRecordBytes
  }

  /** The first terminal record that the schema takes, even if it is too long; all records when there is none. */
  ghost predicate IsLast<R>(codec: Codec<R>, records: seq<R>, n: nat) {
    && n <= |records|
    && (forall i | 0 <= i < n - 1 :: !(codec.valid(records[i]) && codec.terminal(records[i])))
    && (n < |records| ==> n > 0 && codec.valid(records[n - 1]) && codec.terminal(records[n - 1]))
  }

  function Fitting<R>(codec: Codec<R>, maxRecordBytes: nat, records: seq<R>): seq<R> {
    if records == [] then []
    else if Fits(codec, maxRecordBytes, records[0]) then [records[0]] + Fitting(codec, maxRecordBytes, records[1..])
    else Fitting(codec, maxRecordBytes, records[1..])
  }

  lemma {:induction false} NothingAfterTerminal<R>(w: Writer<R>, codec: Codec<R>, maxRecordBytes: nat, records: seq<R>)
    requires w.closed || w.terminalWritten
    ensures WriteAll(w, codec, maxRecordBytes, records) == w
    decreases |records|
  {
    if records != [] {
      NothingAfterTerminal(w, codec, maxRecordBytes, records[1..]);
    }
  }

  /** A new writer writes the records that fit, in order, up to the first terminal one; and nothing after that. */
  lemma {:induction false} WritesExactly<R>(w: Writer<R>, codec: Codec<R>, maxRecordBytes: nat, records: seq<R>, n: nat)
    requires !w.closed && !w.terminalWritten && IsLast(codec, records, n)
    ensures WriteAll(w, codec, maxRecordBytes, records).written
      == w.written + Fitting(codec, maxRecordBytes, records[..n])
    decreases |records|
  {
    if records == [] {
      assert w.written + [] == w.written;
    } else if n == 0 {
      assert false;
    } else {
      var r, rest := records[0], records[1..];
      var next := Write(w, codec, maxRecordBytes, r).0;
      assert records[..n][1..] == rest[..n - 1] && records[..n][0] == r;
      var head := if Fits(codec, maxRecordBytes, r) then [r] else [];
      assert next.written == w.written + head;
      if next.terminalWritten {
        NothingAfterTerminal(next, codec, maxRecordBytes, rest);
        assert n == 1;
        assert Fitting(codec, maxRecordBytes, rest[..0]) == [];
      } else {
        assert IsLast(codec, rest, n - 1);
        WritesExactly(next, codec, maxRecordBytes, rest, n - 1);
      }
      assert (w.written + head) + Fitting(codec, maxRecordBytes, rest[..n - 1])
        == w.written + (head + Fitting(codec, maxRecordBytes, rest[..n - 1]));
    }
  }
}
