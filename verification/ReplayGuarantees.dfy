/** What the repairs of a session log say, field by field (apps/agent-runtime/src/session-replay.ts). */
module ReplayGuarantees {
  import opened Wrappers
  import opened SessionReplay

  // ---------------------------------------------------------------- the calls of a reply

  /** A block that calls a tool, as this call. */
  predicate IsCallBlock(b: Block, c: Call) {
    b.Block? && b.kind == "toolCall" && b.id == Some(c.id)
      && (b.name.Some? ==> b.name.value == c.name) && (b.name.None? ==> c.name == "unknown")
  }

  predicate IsLive(m: Message) {
    m.Assistant? && m.content.Some? && m.stopReason !in ["error", "aborted"]
  }

  /** `at` are the places of the blocks that call tools, in order, and `calls` what they call. */
  ghost predicate AreCallsAt(blocks: seq<Block>, calls: seq<Call>, at: seq<nat>) {
    && |at| == |calls|
    && (forall k | 0 <= k < |at| :: at[k] < |blocks| && IsCallBlock(blocks[at[k]], calls[k]))
    && (forall k, l | 0 <= k < l < |at| :: at[k] < at[l])
    && (forall i, c | 0 <= i < |blocks| && IsCallBlock(blocks[i], c) :: i in at)
  }

  lemma {:induction false} BlockCallsAt(blocks: seq<Block>) returns (at: seq<nat>)
    ensures AreCallsAt(blocks, BlockCalls(blocks), at)
    decreases |blocks|
  {
    at := [];
    if blocks != [] {
      var n := |blocks| - 1;
      at := BlockCallsAt(blocks[..n]);
      assert blocks == blocks[..n] + [blocks[n]];
      if BlockCall(blocks[n]) == [] {
        OtherBlock(blocks[..n], blocks[n], BlockCalls(blocks[..n]), at);
        assert BlockCalls(blocks[..n]) + [] == BlockCalls(blocks[..n]);
      } else {
        CallAfter(blocks[..n], blocks[n], BlockCalls(blocks[..n]), BlockCall(blocks[n])[0], at);
        at := at + [n];
      }
    }
  }

  lemma OtherBlock(blocks: seq<Block>, b: Block, calls: seq<Call>, at: seq<nat>)
    requires AreCallsAt(blocks, calls, at) && forall c :: !IsCallBlock(b, c)
    ensures AreCallsAt(blocks + [b], calls, at)
  {
    forall i, c | 0 <= i < |blocks + [b]| && IsCallBlock((blocks + [b])[i], c) ensures i in at {
      assert i < |blocks|;
    }
  }

  lemma CallAfter(blocks: seq<Block>, b: Block, calls: seq<Call>, c: Call, at: seq<nat>)
    requires AreCallsAt(blocks, calls, at) && IsCallBlock(b, c)
    ensures AreCallsAt(blocks + [b], calls + [c], at + [|blocks|])
  {
    var next := at + [|blocks|];
    assert next[|at|] == |blocks|;
    forall i, d | 0 <= i < |blocks + [b]| && IsCallBlock((blocks + [b])[i], d) ensures i in next {
      if i < |blocks| {
        assert i in at;
      }
    }
  }

  /** The live tool calls of a message: those of its blocks, in order, unless the reply failed or was aborted. */
  lemma LiveCalls(m: Message) returns (at: seq<nat>)
    ensures IsLive(m) ==> AreCallsAt(m.content.value, ToolCalls(m), at)
    ensures !IsLive(m) ==> ToolCalls(m) == []
  {
    at := [];
    if IsLive(m) {
      at := BlockCallsAt(m.content.value);
    }
  }

  // ---------------------------------------------------------------- what a repair says

  /** The message answers the call: with the outcome that was settled for it, or else as interrupted. */
  predicate Answers(m: Message, c: Call, cx: Context) {
    && m.ToolResult? && m.toolCallId == Some(c.id) && m.toolName == c.name && m.timestamp == cx.now
    && (c.id in cx.outcomes ==> m.text == cx.outcomes[c.id].text && m.isError == cx.outcomes[c.id].isError)
    && (c.id !in cx.outcomes ==> m.text == INTERRUPTED && m.isError)
  }

  ghost predicate AnswersOpen(log: seq<Message>, m: Message, cx: Context) {
    exists c :: IsOpen(log, c) && Answers(m, c, cx)
  }

  /** Every inserted message of a replay answers, field by field, a call that is open where it stands. */
  lemma InsertedAnswersByField(messages: seq<Message>, cx: Context, i: nat)
    requires i < |Items(messages, cx)| && Items(messages, cx)[i].Inserted?
    ensures AnswersOpen(Strip(Items(messages, cx))[..i], Items(messages, cx)[i].message, cx)
  {
    ReplayClosure(messages, cx);
    var log := Strip(Items(messages, cx));
    assert AnswersOpenCall(log, i, cx);
    var c :| IsOpen(log[..i], c) && log[i] == ClosingResult(c, cx);
    assert Answers(log[i], c, cx);
  }

  // ---------------------------------------------------------------- the trailing repairs

  /** The last message of the log that is no tool result. */
  ghost predicate IsLatest(log: seq<Message>, a: nat) {
    a < |log| && !log[a].ToolResult? && forall k | a < k < |log| :: log[k].ToolResult?
  }

  /** No later call of the reply has the id again. */
  ghost predicate LastNamed(calls: seq<Call>, c: Call) {
    exists k :: 0 <= k < |calls| && calls[k] == c && forall l | k < l < |calls| :: calls[l].id != c.id
  }

  /** The calls that are open at the end of the log are pending, once each, in the order of their first blocks. */
  ghost predicate PendingExact(log: seq<Message>, pending: seq<Call>) {
    && (forall c | c in pending :: IsOpen(log, c))
    && (forall c | IsOpen(log, c) :: Has(pending, c.id))
    && (forall a: nat | IsLatest(log, a) :: InCallOrder(ToolCalls(log[a]), pending))
  }

  ghost predicate InCallOrder(calls: seq<Call>, pending: seq<Call>) {
    && (forall p, q | 0 <= p < q < |pending| :: IndexOf(calls, pending[p].id) < IndexOf(calls, pending[q].id))
    && (forall c | c in pending :: LastNamed(calls, c))
  }

  lemma LastNamedStays(calls: seq<Call>, call: Call, c: Call)
    requires LastNamed(calls, c) && c.id != call.id
    ensures LastNamed(calls + [call], c)
  {
    var k :| 0 <= k < |calls| && calls[k] == c && forall l | k < l < |calls| :: calls[l].id != c.id;
    assert (calls + [call])[k] == c;
  }

  lemma IndexStays(calls: seq<Call>, call: Call, id: string)
    requires IndexOf(calls, id) < |calls|
    ensures IndexOf(calls + [call], id) == IndexOf(calls, id)
  {
    var all := calls + [call];
    assert all[IndexOf(calls, id)].id == id;
    assert forall j | 0 <= j < IndexOf(calls, id) :: all[j] == calls[j];
  }

  lemma {:induction false} PutAllInOrder(calls: seq<Call>)
    ensures Distinct(PutAll([], calls)) && InCallOrder(calls, PutAll([], calls))
    ensures forall p | 0 <= p < |PutAll([], calls)| :: IndexOf(calls, PutAll([], calls)[p].id) < |calls|
    decreases |calls|
  {
    if calls != [] {
      var front, call := calls[..|calls| - 1], calls[|calls| - 1];
      PutAllInOrder(front);
      PutAllFacts([], front);
      PutInOrder(front, call, PutAll([], front));
      assert calls == front + [call];
    }
  }

  lemma PutInOrder(calls: seq<Call>, call: Call, pending: seq<Call>)
    requires Distinct(pending) && InCallOrder(calls, pending)
    requires forall p | 0 <= p < |pending| :: IndexOf(calls, pending[p].id) < |calls|
    requires forall c | c in calls :: Has(pending, c.id)
    ensures var next := Put(pending, call); Distinct(next) && InCallOrder(calls + [call], next)
    ensures var next := Put(pending, call);
      forall p | 0 <= p < |next| :: IndexOf(calls + [call], next[p].id) < |calls| + 1
  {
    PutFacts(pending, call);
    PutNamed(calls, call, pending);
    PutOrder(calls, call, pending);
  }

  lemma PutNamed(calls: seq<Call>, call: Call, pending: seq<Call>)
    requires Distinct(pending) && forall c | c in pending :: LastNamed(calls, c)
    ensures forall c | c in Put(pending, call) :: LastNamed(calls + [call], c)
  {
    PutFacts(pending, call);
    forall c | c in Put(pending, call) ensures LastNamed(calls + [call], c) {
      if c != call {
        LastNamedStays(calls, call, c);
      } else {
        assert (calls + [call])[|calls|] == c;
      }
    }
  }

  lemma PutOrder(calls: seq<Call>, call: Call, pending: seq<Call>)
    requires forall p, q | 0 <= p < q < |pending| :: IndexOf(calls, pending[p].id) < IndexOf(calls, pending[q].id)
    requires forall p | 0 <= p < |pending| :: IndexOf(calls, pending[p].id) < |calls|
    requires forall c | c in calls :: Has(pending, c.id)
    ensures var next, all := Put(pending, call), calls + [call];
      && (forall p, q | 0 <= p < q < |next| :: IndexOf(all, next[p].id) < IndexOf(all, next[q].id))
      && (forall p | 0 <= p < |next| :: IndexOf(all, next[p].id) < |all|)
  {
    var next := Put(pending, call);
    forall p | 0 <= p < |next|
      ensures IndexOf(calls + [call], next[p].id)
        == if p < |pending| then IndexOf(calls, pending[p].id) else |calls| {
      if p < |pending| {
        assert next[p].id == pending[p].id;
        IndexStays(calls, call, pending[p].id);
      } else {
        NewIndex(calls, call, pending);
      }
    }
  }

  lemma NewIndex(calls: seq<Call>, call: Call, pending: seq<Call>)
    requires (forall c | c in calls :: Has(pending, c.id)) && IndexOf(pending, call.id) == |pending|
    ensures IndexOf(calls + [call], call.id) == |calls|
  {
    forall k | 0 <= k < |calls| ensures calls[k].id != call.id {
      assert calls[k] in calls && Has(pending, calls[k].id);
      var c :| c in pending && c.id == calls[k].id;
    }
    assert (calls + [call])[|calls|] == call;
  }

  lemma {:induction false} PendingIsExact(messages: seq<Message>, cx: Context)
    ensures Distinct(Scan(Plan([], []), messages, cx).pending)
    ensures PendingExact(messages, Scan(Plan([], []), messages, cx).pending)
    decreases |messages|
  {
    if messages != [] {
      var front, m := messages[..|messages| - 1], messages[|messages| - 1];
      var pending := Scan(Plan([], []), front, cx).pending;
      PendingIsExact(front, cx);
      assert messages == front + [m];
      if m.ToolResult? {
        ResultExact(front, pending, m, Scan(Plan([], []), messages, cx).pending);
      } else {
        OtherExact(front, m);
      }
    }
  }

  lemma OtherExact(log: seq<Message>, m: Message)
    requires !m.ToolResult?
    ensures Distinct(PutAll([], ToolCalls(m))) && PendingExact(log + [m], PutAll([], ToolCalls(m)))
  {
    var after, pending := log + [m], PutAll([], ToolCalls(m));
    PutAllFacts([], ToolCalls(m));
    PutAllInOrder(ToolCalls(m));
    forall c | c in pending ensures IsOpen(after, c) {
      assert OpenCall(after, |log|, c);
    }
    forall c | IsOpen(after, c) ensures Has(pending, c.id) {
      var a: nat :| OpenCall(after, a, c);
      assert a == |log|;
    }
  }

  lemma ResultExact(log: seq<Message>, pending: seq<Call>, m: Message, left: seq<Call>)
    requires m.ToolResult? && Distinct(pending) && PendingExact(log, pending)
    requires left == if m.toolCallId.Some? then Remove(pending, m.toolCallId.value) else pending
    ensures Distinct(left) && PendingExact(log + [m], left)
  {
    if m.toolCallId.Some? {
      RemoveFacts(pending, m.toolCallId.value);
    }
    LeftExact(log, pending, m, left);
    forall a: nat | IsLatest(log + [m], a) ensures InCallOrder(ToolCalls((log + [m])[a]), left) {
      assert (log + [m])[|log|] == m;
      assert forall k | 0 <= k < |log| :: (log + [m])[k] == log[k];
      assert IsLatest(log, a);
      LeftInOrder(ToolCalls(log[a]), pending, m, left);
    }
  }

  lemma LeftExact(log: seq<Message>, pending: seq<Call>, m: Message, left: seq<Call>)
    requires m.ToolResult?
    requires (forall c | c in pending :: IsOpen(log, c)) && (forall c | IsOpen(log, c) :: Has(pending, c.id))
    requires forall c :: c in left <==> c in pending && m.toolCallId != Some(c.id)
    ensures (forall c | c in left :: IsOpen(log + [m], c)) && (forall c | IsOpen(log + [m], c) :: Has(left, c.id))
  {
    forall c | c in left ensures IsOpen(log + [m], c) {
      OpenAfterResult(log, m, c);
    }
    forall c | IsOpen(log + [m], c) ensures Has(left, c.id) {
      OpenAfterResult(log, m, c);
      var d :| d in pending && d.id == c.id;
      assert d in left;
    }
  }

  lemma OpenAfterResult(log: seq<Message>, m: Message, c: Call)
    requires m.ToolResult?
    ensures IsOpen(log + [m], c) <==> IsOpen(log, c) && m.toolCallId != Some(c.id)
  {
    var after := log + [m];
    if IsOpen(after, c) {
      var a: nat :| OpenCall(after, a, c);
      assert after[|log|] == m && a < |log|;
      forall k | a < k < |log| ensures log[k].ToolResult? && log[k].toolCallId != Some(c.id) {
        assert after[k] == log[k];
      }
      assert OpenCall(log, a, c);
    }
    if IsOpen(log, c) && m.toolCallId != Some(c.id) {
      var a: nat :| OpenCall(log, a, c);
      assert OpenCall(after, a, c);
    }
  }

  lemma LeftInOrder(calls: seq<Call>, pending: seq<Call>, m: Message, left: seq<Call>)
    requires m.ToolResult? && InCallOrder(calls, pending)
    requires left == if m.toolCallId.Some? then Remove(pending, m.toolCallId.value) else pending
    ensures InCallOrder(calls, left)
  {
    forall c | c in left ensures c in pending {}
  }

  lemma ClosingAnswers(pending: seq<Call>, cx: Context, p: nat)
    requires p < |pending|
    ensures Answers(Closing(pending, cx)[p], pending[p], cx)
  {}

  ghost predicate AnswersNamed(calls: seq<Call>, m: Message, cx: Context) {
    exists c :: LastNamed(calls, c) && Answers(m, c, cx)
  }

  ghost predicate HasFor(repairs: seq<Message>, id: string) {
    exists p :: 0 <= p < |repairs| && IsFor(repairs[p], id)
  }

  /** The repairs are for the open calls, with the fields of their answers. */
  ghost predicate AreForOpen(log: seq<Message>, repairs: seq<Message>, cx: Context) {
    && (forall p | 0 <= p < |repairs| :: AnswersOpen(log, repairs[p], cx))
    && (forall c | IsOpen(log, c) :: HasFor(repairs, c.id))
  }

  predicate IsFor(m: Message, id: string) {
    m.ToolResult? && m.toolCallId == Some(id)
  }

  lemma HasRepair(pending: seq<Call>, cx: Context, id: string)
    requires Has(pending, id)
    ensures HasFor(Closing(pending, cx), id)
  {
    var d :| d in pending && d.id == id;
    var p :| 0 <= p < |pending| && pending[p] == d;
    ClosingAnswers(pending, cx, p);
    assert IsFor(Closing(pending, cx)[p], id);
  }

  lemma ClosingIsForOpen(log: seq<Message>, pending: seq<Call>, cx: Context)
    requires (forall c | c in pending :: IsOpen(log, c)) && (forall c | IsOpen(log, c) :: Has(pending, c.id))
    ensures AreForOpen(log, Closing(pending, cx), cx)
  {
    var repairs := Closing(pending, cx);
    forall p | 0 <= p < |repairs| ensures AnswersOpen(log, repairs[p], cx) {
      ClosingAnswers(pending, cx, p);
      assert pending[p] in pending;
    }
    forall c | IsOpen(log, c) ensures HasFor(repairs, c.id) {
      HasRepair(pending, cx, c.id);
    }
  }

  /** They come in the order in which the reply has their ids first, under the names that it gives them last. */
  ghost predicate AreInCallOrder(calls: seq<Call>, repairs: seq<Message>, cx: Context) {
    && (forall p | 0 <= p < |repairs| :: AnswersNamed(calls, repairs[p], cx))
    && (forall p, q, a, b | 0 <= p < q < |repairs| && IsFor(repairs[p], a) && IsFor(repairs[q], b) ::
         IndexOf(calls, a) < IndexOf(calls, b))
  }

  lemma ClosingIsInCallOrder(calls: seq<Call>, pending: seq<Call>, cx: Context)
    requires InCallOrder(calls, pending)
    ensures AreInCallOrder(calls, Closing(pending, cx), cx)
  {
    var repairs := Closing(pending, cx);
    forall p | 0 <= p < |repairs|
      ensures IsFor(repairs[p], pending[p].id) && AnswersNamed(calls, repairs[p], cx) {
      ClosingAnswers(pending, cx, p);
      assert pending[p] in pending && LastNamed(calls, pending[p]);
    }
  }

  /**
   * The trailing repairs answer exactly the calls that are open at the end of the log, one repair for an id, in the
   * order in which the latest reply has them first, and under the name that it gives them last.
   */
  lemma TrailingRepairsExact(messages: seq<Message>, cx: Context)
    ensures AreForOpen(messages, TrailingRepairs(messages, cx), cx)
    ensures forall a: nat | IsLatest(messages, a) ::
      AreInCallOrder(ToolCalls(messages[a]), TrailingRepairs(messages, cx), cx)
  {
    var pending := Scan(Plan([], []), messages, cx).pending;
    PendingIsExact(messages, cx);
    ClosingIsForOpen(messages, pending, cx);
    forall a: nat | IsLatest(messages, a) ensures AreInCallOrder(ToolCalls(messages[a]), Closing(pending, cx), cx) {
      ClosingIsInCallOrder(ToolCalls(messages[a]), pending, cx);
    }
  }
}
