/** What holds of JSON Lines framing over whole streams (apps/agent-runtime/src/jsonl.ts). */
module JsonlGuarantees {
  import opened Wrappers
  import opened Jsonl

  // ---------------------------------------------------------------- chunking does not matter

  lemma IndexOfLfAppend(a: seq<byte>, b: seq<byte>)
    ensures IndexOfLf(a) < |a| ==> IndexOfLf(a + b) == IndexOfLf(a)
    ensures IndexOfLf(a) == |a| ==> IndexOfLf(a + b) == |a| + IndexOfLf(b)
  {
    var n, i := IndexOfLf(a + b), IndexOfLf(a);
    if i < |a| {
      assert (a + b)[i] == LF;
      assert n <= i;
      assert (a + b)[n] == a[n];
    } else {
      var m := IndexOfLf(b);
      assert forall j | 0 <= j < |a| + m :: (a + b)[j] != LF by {
        forall j | 0 <= j < |a| + m ensures (a + b)[j] != LF {
          assert (a + b)[j] == if j < |a| then a[j] else b[j - |a|];
        }
      }
      if m < |b| {
        assert (a + b)[|a| + m] == LF;
      }
    }
  }

  /** What a failed drain leaves besides the buffer. */
  ghost predicate SameButBuffer<R>(a: Queue<R>, b: Queue<R>) {
    a.(buffer := []) == b.(buffer := [])
  }

  /** Bytes after the first newline do not change what the first line parses to. */
  lemma TakeLineAppend<R>(q: Queue<R>, limits: Limits, decode: seq<byte> -> Decoded<R>, more: seq<byte>)
    requires IndexOfLf(q.buffer) < |q.buffer|
    ensures IndexOfLf(q.buffer + more) < |q.buffer + more|
    ensures var (a, e) := TakeLine(q, limits, decode);
      TakeLine(q.(buffer := q.buffer + more), limits, decode) == (a.(buffer := a.buffer + more), e)
  {
    var n := IndexOfLf(q.buffer);
    IndexOfLfAppend(q.buffer, more);
    assert (q.buffer + more)[..n] == q.buffer[..n] && (q.buffer + more)[n + 1..] == q.buffer[n + 1..] + more;
  }

  /** More bytes after the buffer: a drain that succeeded goes on, and one that failed fails alike. */
  lemma {:induction false} DrainAppend<R>(q: Queue<R>, limits: Limits, decode: seq<byte> -> Decoded<R>, more: seq<byte>)
    ensures var (a, e) := Drain(q, limits, decode);
      var (b, f) := Drain(q.(buffer := q.buffer + more), limits, decode);
      && (e.None? ==> (b, f) == Drain(a.(buffer := a.buffer + more), limits, decode))
      && (e.Some? ==> f == e && SameButBuffer(a, b))
    decreases |q.buffer|
  {
    if IndexOfLf(q.buffer) < |q.buffer| {
      TakeLineAppend(q, limits, decode, more);
      var (parsed, error) := TakeLine(q, limits, decode);
      if error.None? {
        DrainAppend(parsed, limits, decode, more);
      }
    } else {
      IndexOfLfAppend(q.buffer, more);
    }
  }

  lemma {:induction false} DrainShrinks<R>(q: Queue<R>, limits: Limits, decode: seq<byte> -> Decoded<R>)
    ensures |Drain(q, limits, decode).0.buffer| <= |q.buffer| && Drain(q, limits, decode).0.ended == q.ended
    decreases |q.buffer|
  {
    if IndexOfLf(q.buffer) < |q.buffer| {
      var (parsed, error) := TakeLine(q, limits, decode);
      if error.None? {
        DrainShrinks(parsed, limits, decode);
      }
    }
  }

  /** Feeding stops at the first chunk that fails. */
  function FeedAll<R>(q: Queue<R>, limits: Limits, decode: seq<byte> -> Decoded<R>,
          chunks: seq<seq<byte>>): (Queue<R>, Option<ProtocolError>)
    decreases |chunks|
  {
    if chunks == [] then (q, None)
    else
      var (next, error) := Feed(q, limits, decode, chunks[0]);
      if error.Some? then (next, error) else FeedAll(next, limits, decode, chunks[1..])
  }

  function Concat(chunks: seq<seq<byte>>): seq<byte> {
    if chunks == [] then [] else chunks[0] + Concat(chunks[1..])
  }

  /** Two chunks in a row do what their concatenation does, as long as together they fit the buffer. */
  lemma TwoChunks<R>(q: Queue<R>, limits: Limits, decode: seq<byte> -> Decoded<R>, a: seq<byte>, b: seq<byte>)
    requires |q.buffer| + |a| + |b| <= limits.maxQueuedBytes + limits.maxRecordBytes
    ensures var (first, e) := Feed(q, limits, decode, a);
      var (whole, f) := Feed(q, limits, decode, a + b);
      && (e.None? ==> (whole, f) == Feed(first, limits, decode, b))
      && (e.Some? ==> f == e && SameButBuffer(first, whole))
  {
    if !q.ended {
      var grown := q.(buffer := q.buffer + a);
      assert grown.buffer + b == q.buffer + (a + b);
      DrainAppend(grown, limits, decode, b);
      DrainShrinks(grown, limits, decode);
    }
  }

  /**
   * However a stream is cut into chunks, feeding them has the same outcome as feeding it whole, the
   * error included: the same state when it succeeds, and the same records when it fails.
   */
  lemma {:induction false} ChunkingInvariance<R>(q: Queue<R>, limits: Limits, decode: seq<byte> -> Decoded<R>,
          chunks: seq<seq<byte>>)
    requires chunks != [] && |q.buffer| + |Concat(chunks)| <= limits.maxQueuedBytes + limits.maxRecordBytes
    ensures var (a, e) := FeedAll(q, limits, decode, chunks);
      var (b, f) := Feed(q, limits, decode, Concat(chunks));
      && e == f
      && SameButBuffer(a, b)
      && (e.None? ==> a == b)
    decreases |chunks|
  {
    if |chunks| == 1 {
      assert Concat(chunks) == chunks[0];
    } else {
      TwoChunks(q, limits, decode, chunks[0], Concat(chunks[1..]));
      var (first, e) := Feed(q, limits, decode, chunks[0]);
      if e.None? {
        DrainShrinks(q.(buffer := q.buffer + chunks[0]), limits, decode);
        ChunkingInvariance(first, limits, decode, chunks[1..]);
      }
    }
  }

  // ---------------------------------------------------------------- what a run of chunks keeps

  /**
   * Over a run of chunks the queue keeps its budgets, and while no chunk fails, the lines accepted,
   * each with its newline, followed by the buffer are exactly the bytes fed.
   */
  lemma {:induction false} FeedAllConserves<R>(q: Queue<R>, limits: Limits, decode: seq<byte> -> Decoded<R>,
          chunks: seq<seq<byte>>)
    requires QueueInv(q, limits, decode)
    ensures QueueInv(FeedAll(q, limits, decode, chunks).0, limits, decode)
    ensures FeedAll(q, limits, decode, chunks).1.None?
      ==> Bytes(FeedAll(q, limits, decode, chunks).0) == Bytes(q) + Concat(chunks)
    decreases |chunks|
  {
    if chunks != [] {
      FeedConserves(q, limits, decode, chunks[0]);
      var (next, error) := Feed(q, limits, decode, chunks[0]);
      if error.None? {
        FeedAllConserves(next, limits, decode, chunks[1..]);
        Reassociate(Bytes(q), chunks[0], Concat(chunks[1..]));
      }
    }
  }

  // ---------------------------------------------------------------- whole runs

  /** What a reader does with a stream: feed a chunk, or take a record. */
  datatype Op = FeedOp(chunk: seq<byte>) | ShiftOp

  /** The queue after a run, the records taken from it, and the error that ended the run, if one did. */
  function Read<R>(q: Queue<R>, limits: Limits, decode: seq<byte> -> Decoded<R>,
          ops: seq<Op>): (Queue<R>, seq<R>, Option<ProtocolError>)
    decreases |ops|
  {
    if ops == [] then (q, [], None)
    else match ops[0]
      case FeedOp(chunk) =>
        var (next, error) := Feed(q, limits, decode, chunk);
        if error.Some? then (next, [], error) else Read(next, limits, decode, ops[1..])
      case ShiftOp =>
        var (next, taken) := Shift(q);
        var (last, rest, error) := Read(next, limits, decode, ops[1..]);
        (last, (if taken.Some? then [taken.value] else []) + rest, error)
  }

  function FedBytes(ops: seq<Op>): seq<byte> {
    if ops == [] then [] else (if ops[0].FeedOp? then ops[0].chunk else []) + FedBytes(ops[1..])
  }

  function RecordsOf<R>(queued: seq<Queued<R>>): seq<R> {
    if queued == [] then [] else [queued[0].record] + RecordsOf(queued[1..])
  }

  /** What JSON gives: an encoding has no raw newline or carriage return, is not empty, and decodes back. */
  ghost predicate Invertible<R>(codec: Codec<R>, r: R) {
    var line := codec.encode(r);
    line != [] && LF !in line && CR !in line && codec.decode(line) == Record(r)
  }

  /** The bytes still to come, after the buffer, are the rest of the stream of `left`. */
  ghost predicate Expects<R>(q: Queue<R>, codec: Codec<R>, left: seq<R>, coming: seq<byte>) {
    !q.ended && q.buffer + coming == Stream(codec, left)
  }

  predicate Overflow(e: ProtocolError) {
    e == BufferOverflow || e == QueueOverflow
  }

  lemma RecordsOfAppend<R>(queued: seq<Queued<R>>, r: Queued<R>)
    ensures RecordsOf(queued + [r]) == RecordsOf(queued) + [r.record]
  {
    if queued != [] {
      RecordsOfAppend(queued[1..], r);
      assert (queued + [r])[1..] == queued[1..] + [r];
    }
  }

  /** A buffer that starts a stream starts with its next record's encoding. */
  lemma NextLine<R>(codec: Codec<R>, left: seq<R>, buffer: seq<byte>, coming: seq<byte>)
    requires buffer + coming == Stream(codec, left) && buffer != []
    requires left != [] ==> Invertible(codec, left[0])
    ensures left != []
    ensures IndexOfLf(buffer) == |buffer| ==> |buffer| <= |codec.encode(left[0])|
    ensures IndexOfLf(buffer) < |buffer| ==>
      buffer[..IndexOfLf(buffer)] == codec.encode(left[0])
        && buffer[IndexOfLf(buffer) + 1..] + coming == Stream(codec, left[1..])
  {
    assert (buffer + coming)[0] == buffer[0];
    FirstLf(codec.encode(left[0]), Stream(codec, left[1..]), buffer, coming);
  }

  lemma FirstLf(line: seq<byte>, rest: seq<byte>, buffer: seq<byte>, coming: seq<byte>)
    requires buffer + coming == line + [LF] + rest && LF !in line
    ensures IndexOfLf(buffer) == |buffer| ==> |buffer| <= |line|
    ensures IndexOfLf(buffer) < |buffer|
      ==> buffer[..IndexOfLf(buffer)] == line && buffer[IndexOfLf(buffer) + 1..] + coming == rest
  {
    Framed(line, rest);
    LfPosition(buffer + coming, buffer, |line|);
    if |line| < |buffer| {
      SplitAt(buffer, coming, |line|);
    }
  }

  lemma Framed(line: seq<byte>, rest: seq<byte>)
    ensures var all := line + [LF] + rest;
      && all[|line|] == LF && all[..|line|] == line && all[|line| + 1..] == rest
      && forall j | 0 <= j < |line| :: all[j] == line[j]
  {}

  lemma SplitAt(a: seq<byte>, b: seq<byte>, k: nat)
    requires k < |a|
    ensures a[..k] == (a + b)[..k] && a[k + 1..] + b == (a + b)[k + 1..]
  {}

  lemma LfPosition(all: seq<byte>, buffer: seq<byte>, k: nat)
    requires k < |all| && all[k] == LF && (forall j | 0 <= j < k :: all[j] != LF)
    requires buffer <= all
    ensures IndexOfLf(buffer) == if k < |buffer| then k else |buffer|
  {
    var n := IndexOfLf(buffer);
    assert forall j | 0 <= j < |buffer| :: buffer[j] == all[j];
  }

  /** The line in front of a stream's prefix parses to the next record, unless the queue overflows. */
  lemma ParseNext<R>(q: Queue<R>, limits: Limits, codec: Codec<R>, r: R)
    requires Invertible(codec, r) && |codec.encode(r)| <= limits.maxRecordBytes
    ensures var (p, e) := ParseLine(q, limits, codec.decode, codec.encode(r));
      && (e.Some? ==> Overflow(e.value))
      && (e.None? ==> RecordsOf(p.records) == RecordsOf(q.records) + [r])
  {
    RecordsOfAppend(q.records, Queued(r, |codec.encode(r)| + 1));
  }

  lemma TakeNext<R>(q: Queue<R>, limits: Limits, codec: Codec<R>, left: seq<R>, coming: seq<byte>)
    requires Expects(q, codec, left, coming) && Readable(codec, limits, left) && IndexOfLf(q.buffer) < |q.buffer|
    ensures left != []
    ensures var (p, e) := TakeLine(q, limits, codec.decode);
      && (e.Some? ==> Overflow(e.value))
      && (e.None? ==>
           Expects(p, codec, left[1..], coming) && RecordsOf(p.records) + left[1..] == RecordsOf(q.records) + left)
  {
    if left != [] { assert left[0] in left; }
    NextLine(codec, left, q.buffer, coming);
    ParseNext(q.(buffer := q.buffer[IndexOfLf(q.buffer) + 1..]), limits, codec, left[0]);
    Reassociate(RecordsOf(q.records), [left[0]], left[1..]);
    assert [left[0]] + left[1..] == left;
  }

  ghost predicate Readable<R>(codec: Codec<R>, limits: Limits, records: seq<R>) {
    forall r | r in records :: Invertible(codec, r) && |codec.encode(r)| <= limits.maxRecordBytes
  }

  /** Draining a stream's prefix takes records off its front, and can only fail by overflowing the queue. */
  lemma {:induction false} DrainStream<R>(q: Queue<R>, limits: Limits, codec: Codec<R>, left: seq<R>, coming: seq<byte>)
    returns (rest: seq<R>)
    requires Expects(q, codec, left, coming) && Readable(codec, limits, left)
    ensures var (d, e) := Drain(q, limits, codec.decode);
      && (e.Some? ==> Overflow(e.value))
      && (e.None? ==> Expects(d, codec, rest, coming) && IndexOfLf(d.buffer) == |d.buffer|)
      && (e.None? ==> RecordsOf(d.records) + rest == RecordsOf(q.records) + left)
    ensures Readable(codec, limits, rest)
    decreases |q.buffer|
  {
    rest := left;
    if IndexOfLf(q.buffer) < |q.buffer| {
      TakeNext(q, limits, codec, left, coming);
      var (parsed, error) := TakeLine(q, limits, codec.decode);
      if error.None? {
        rest := DrainStream(parsed, limits, codec, left[1..], coming);
      }
    } else if q.buffer != [] {
      if left != [] { assert left[0] in left; }
      NextLine(codec, left, q.buffer, coming);
    }
  }

  /** The invariant of a reading run: taken records, queued records and the rest are what was expected. */
  lemma {:induction false} ReadStream<R>(q: Queue<R>, limits: Limits, codec: Codec<R>, ops: seq<Op>, left: seq<R>)
    requires Expects(q, codec, left, FedBytes(ops)) && IndexOfLf(q.buffer) == |q.buffer|
    requires Readable(codec, limits, left)
    ensures var (last, taken, error) := Read(q, limits, codec.decode, ops);
      && (error.Some? ==> Overflow(error.value))
      && (error.None? ==> taken + RecordsOf(last.records) == RecordsOf(q.records) + left && End(last).1.None?)
    decreases |ops|
  {
    if ops == [] {
      assert q.buffer + [] == q.buffer;
      StreamIsEmpty(q, codec, left);
    } else if ops[0].FeedOp? {
      var grown := q.(buffer := q.buffer + ops[0].chunk);
      assert grown.buffer + FedBytes(ops[1..]) == q.buffer + FedBytes(ops);
      var rest := DrainStream(grown, limits, codec, left, FedBytes(ops[1..]));
      var (next, error) := Feed(q, limits, codec.decode, ops[0].chunk);
      if error.None? {
        ReadStream(next, limits, codec, ops[1..], rest);
      }
    } else {
      assert FedBytes(ops) == FedBytes(ops[1..]);
      ReadStream(Shift(q).0, limits, codec, ops[1..], left);
      ShiftedRecords(q, limits, codec, ops, left);
    }
  }

  lemma ShiftedRecords<R>(q: Queue<R>, limits: Limits, codec: Codec<R>, ops: seq<Op>, left: seq<R>)
    requires ops != [] && ops[0].ShiftOp?
    requires var (last, taken, error) := Read(Shift(q).0, limits, codec.decode, ops[1..]);
      error.None? ==> taken + RecordsOf(last.records) == RecordsOf(Shift(q).0.records) + left
    ensures var (last, taken, error) := Read(q, limits, codec.decode, ops);
      error.None? ==> taken + RecordsOf(last.records) == RecordsOf(q.records) + left
  {
    var (last, taken, error) := Read(Shift(q).0, limits, codec.decode, ops[1..]);
    if q.records != [] {
      var head := [q.records[0].record];
      assert head + taken + RecordsOf(last.records) == head + (taken + RecordsOf(last.records));
      assert head + (RecordsOf(q.records[1..]) + left) == RecordsOf(q.records) + left;
    } else {
      assert [] + taken == taken;
    }
  }

  /** A stream that has come to its end leaves nothing in the buffer, and every record has been read. */
  lemma StreamIsEmpty<R>(q: Queue<R>, codec: Codec<R>, left: seq<R>)
    requires q.buffer == Stream(codec, left) && IndexOfLf(q.buffer) == |q.buffer|
    ensures left == [] && q.buffer == []
  {
    if left != [] {
      StreamHasLf(codec, left);
      assert false;
    }
  }

  lemma StreamHasLf<R>(codec: Codec<R>, left: seq<R>)
    requires left != []
    ensures LF in Stream(codec, left)
  {
    var line := codec.encode(left[0]);
    assert (line + [LF] + Stream(codec, left[1..]))[|line|] == LF;
  }

  // ---------------------------------------------------------------- when a reader overflows

  /** The complete lines of a buffer, and their bytes, newlines included. */
  function Lines(buffer: seq<byte>): nat
    decreases |buffer|
  {
    if IndexOfLf(buffer) == |buffer| then 0 else 1 + Lines(buffer[IndexOfLf(buffer) + 1..])
  }

  function LineBytes(buffer: seq<byte>): nat
    decreases |buffer|
  {
    if IndexOfLf(buffer) == |buffer| then 0 else IndexOfLf(buffer) + 1 + LineBytes(buffer[IndexOfLf(buffer) + 1..])
  }

  /** The queue can take the complete lines of the buffer. */
  predicate LinesFit<R>(q: Queue<R>, limits: Limits) {
    && |q.records| + Lines(q.buffer) <= limits.maxQueuedRecords
    && q.queuedBytes + LineBytes(q.buffer) <= limits.maxQueuedBytes
  }

  lemma ParseNextIff<R>(q: Queue<R>, limits: Limits, codec: Codec<R>, r: R)
    requires Invertible(codec, r) && |codec.encode(r)| <= limits.maxRecordBytes
    ensures var (p, e) := ParseLine(q, limits, codec.decode, codec.encode(r));
      && (e.None? <==>
           |q.records| < limits.maxQueuedRecords && q.queuedBytes + |codec.encode(r)| + 1 <= limits.maxQueuedBytes)
      && (e.None? ==> |p.records| == |q.records| + 1 && p.queuedBytes == q.queuedBytes + |codec.encode(r)| + 1)
  {}

  /** Draining a stream's prefix succeeds exactly when the queue can take its lines. */
  lemma {:induction false} DrainsIff<R>(q: Queue<R>, limits: Limits, codec: Codec<R>, left: seq<R>, coming: seq<byte>)
    requires Expects(q, codec, left, coming) && Readable(codec, limits, left)
    requires |q.records| <= limits.maxQueuedRecords && q.queuedBytes <= limits.maxQueuedBytes
    ensures Drain(q, limits, codec.decode).1.None? <==> LinesFit(q, limits)
    decreases |q.buffer|
  {
    if IndexOfLf(q.buffer) < |q.buffer| {
      TakeNext(q, limits, codec, left, coming);
      assert left[0] in left;
      NextLine(codec, left, q.buffer, coming);
      var n := IndexOfLf(q.buffer);
      ParseNextIff(q.(buffer := q.buffer[n + 1..]), limits, codec, left[0]);
      var (parsed, error) := TakeLine(q, limits, codec.decode);
      if error.None? {
        DrainsIff(parsed, limits, codec, left[1..], coming);
      }
    } else if q.buffer != [] {
      if left != [] { assert left[0] in left; }
      NextLine(codec, left, q.buffer, coming);
    }
  }

  /** There is room for a chunk: in the buffer, and in the queue for the lines that it completes. */
  predicate HasRoom<R>(q: Queue<R>, limits: Limits, chunk: seq<byte>) {
    && |q.buffer + chunk| <= limits.maxQueuedBytes + limits.maxRecordBytes
    && LinesFit(q.(buffer := q.buffer + chunk), limits)
  }

  /** There is, at every feed of a run. */
  predicate AlwaysRoom<R>(q: Queue<R>, limits: Limits, decode: seq<byte> -> Decoded<R>, ops: seq<Op>)
    decreases |ops|
  {
    if ops == [] then true
    else match ops[0]
      case FeedOp(chunk) =>
        HasRoom(q, limits, chunk) && AlwaysRoom(Feed(q, limits, decode, chunk).0, limits, decode, ops[1..])
      case ShiftOp => AlwaysRoom(Shift(q).0, limits, decode, ops[1..])
  }

  /** Reading a stream succeeds exactly when there is. */
  lemma {:induction false} ReadsIff<R>(q: Queue<R>, limits: Limits, codec: Codec<R>, ops: seq<Op>, left: seq<R>)
    requires Expects(q, codec, left, FedBytes(ops)) && IndexOfLf(q.buffer) == |q.buffer|
    requires Readable(codec, limits, left) && QueueInv(q, limits, codec.decode)
    ensures Read(q, limits, codec.decode, ops).2.None? <==> AlwaysRoom(q, limits, codec.decode, ops)
    decreases |ops|
  {
    if ops == [] {
    } else if ops[0].FeedOp? {
      var grown := q.(buffer := q.buffer + ops[0].chunk);
      assert grown.buffer + FedBytes(ops[1..]) == q.buffer + FedBytes(ops);
      DrainsIff(grown, limits, codec, left, FedBytes(ops[1..]));
      var rest := DrainStream(grown, limits, codec, left, FedBytes(ops[1..]));
      var (next, error) := Feed(q, limits, codec.decode, ops[0].chunk);
      if error.None? {
        FeedInv(q, limits, codec.decode, ops[0].chunk);
        ReadsIff(next, limits, codec, ops[1..], rest);
      }
    } else {
      assert FedBytes(ops) == FedBytes(ops[1..]);
      ShiftInv(q, limits, codec.decode);
      ReadsIff(Shift(q).0, limits, codec, ops[1..], left);
    }
  }

  lemma {:induction false} FewLines(buffer: seq<byte>, chunk: seq<byte>)
    requires LF !in buffer
    ensures Lines(buffer + chunk) <= |chunk|
    ensures LineBytes(buffer + chunk) <= |buffer| + |chunk|
    decreases |buffer| + |chunk|
  {
    var all := buffer + chunk;
    var n := IndexOfLf(all);
    if n < |all| {
      assert all[n] == LF;
      assert n >= |buffer|;
      assert all[n + 1..] == [] + chunk[n - |buffer| + 1..];
      FewLines([], chunk[n - |buffer| + 1..]);
    }
  }

  /** A reader that empties the queue before it feeds, and feeds chunks within the limits, always has room. */
  lemma EmptiedHasRoom<R>(q: Queue<R>, limits: Limits, chunk: seq<byte>)
    requires q.records == [] && q.queuedBytes == 0 && LF !in q.buffer && |q.buffer| <= limits.maxRecordBytes
    requires |chunk| <= limits.maxQueuedRecords && |chunk| + limits.maxRecordBytes <= limits.maxQueuedBytes
    ensures HasRoom(q, limits, chunk)
  {
    FewLines(q.buffer, chunk);
  }

  /** What a reader makes of a stream: its records in order and a clean end, unless it lacks room for a feed. */
  lemma StreamIsRead<R>(limits: Limits, codec: Codec<R>, ops: seq<Op>, written: seq<R>)
    requires FedBytes(ops) == Stream(codec, written) && Readable(codec, limits, written)
    ensures var (last, taken, error) := Read(Empty<R>(), limits, codec.decode, ops);
      && (error.Some? ==> Overflow(error.value))
      && (error.None? ==> taken + RecordsOf(last.records) == written && End(last).1.None?)
      && (error.None? <==> AlwaysRoom(Empty<R>(), limits, codec.decode, ops))
  {
    assert Empty<R>().buffer + FedBytes(ops) == FedBytes(ops);
    ReadStream(Empty<R>(), limits, codec, ops, written);
    ReadsIff(Empty<R>(), limits, codec, ops, written);
  }

  /**
   * Framing round trip: what a writer put out, cut into any chunks and read with any shifts in
   * between, gives the written records in order, and then the input ends cleanly. The only errors
   * are that the reader let its buffer or its queue overflow, and there is none exactly when it always has room.
   */
  lemma RoundTrip<R>(codec: Codec<R>, maxRecordBytes: nat, limits: Limits, records: seq<R>, ops: seq<Op>)
    requires maxRecordBytes <= limits.maxRecordBytes + 1
    requires forall r | r in records && codec.valid(r) :: Invertible(codec, r)
    requires FedBytes(ops) == Stream(codec, WriteAll(Writer(false, false, []), codec, maxRecordBytes, records).written)
    ensures var written := WriteAll(Writer(false, false, []), codec, maxRecordBytes, records).written;
      var (last, taken, error) := Read(Empty<R>(), limits, codec.decode, ops);
      && (error.Some? ==> Overflow(error.value))
      && (error.None? ==> taken + RecordsOf(last.records) == written && End(last).1.None?)
      && (error.None? <==> AlwaysRoom(Empty<R>(), limits, codec.decode, ops))
  {
    var w := Writer(false, false, []);
    var written := WriteAll(w, codec, maxRecordBytes, records).written;
    WriterKeepsInv(w, codec, maxRecordBytes, records);
    WrittenAreGiven(w, codec, maxRecordBytes, records);
    assert Readable(codec, limits, written);
    StreamIsRead(limits, codec, ops, written);
  }

  lemma {:induction false} WrittenAreGiven<R>(w: Writer<R>, codec: Codec<R>, maxRecordBytes: nat, records: seq<R>)
    ensures forall r | r in WriteAll(w, codec, maxRecordBytes, records).written :: r in w.written || r in records
    decreases |records|
  {
    if records != [] {
      WrittenAreGiven(Write(w, codec, maxRecordBytes, records[0]).0, codec, maxRecordBytes, records[1..]);
    }
  }
}
