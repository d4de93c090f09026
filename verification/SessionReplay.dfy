/** Session logs and their repair for replay (apps/agent-runtime/src/session-replay.ts). */
module SessionReplay {
  import opened Wrappers

  const INTERRUPTED := "interrupted: the previous run ended before this tool returned; it was not replayed"

  /** One content block; `NotAnObject` stands for every block that is no JSON object. */
  datatype Block = NotAnObject | Block(kind: string, id: Option<string>, name: Option<string>)

  /** `rest` stands for the fields replay never looks at; `content` is `None` when it is no array. */
  datatype Message =
    | User(rest: string)
    | Assistant(content: Option<seq<Block>>, stopReason: string, rest: string)
    | ToolResult(toolCallId: Option<string>, toolName: string, text: string, isError: bool, timestamp: int,
      rest: string)

  datatype Call = Call(id: string, name: string)

  datatype Outcome = Outcome(text: string, isError: bool)

  // ---------------------------------------------------------------- live tool calls

  function BlockCall(b: Block): seq<Call> {
    if b.Block? && b.kind == "toolCall" && b.id.Some? then [Call(b.id.value, GetOr(b.name, "unknown"))] else []
  }

  function BlockCalls(blocks: seq<Block>): seq<Call> {
    if blocks == [] then [] else BlockCalls(blocks[..|blocks| - 1]) + BlockCall(blocks[|blocks| - 1])
  }

  /** The tool calls the provider will see: none of a reply that stopped with an error or was aborted. */
  function ToolCalls(m: Message): seq<Call> {
    if m.Assistant? && m.content.Some? && m.stopReason != "error" && m.stopReason != "aborted"
    then BlockCalls(m.content.value)
    else []
  }

  method CollectToolCalls(m: Message) returns (calls: seq<Call>)
    ensures calls == ToolCalls(m)
  {
    calls := [];
    if !m.Assistant? || m.content.None? || m.stopReason == "error" || m.stopReason == "aborted" {
      return;
    }
    var blocks := m.content.value;
    for i := 0 to |blocks|
      invariant calls == BlockCalls(blocks[..i])
    {
      var b := blocks[i];
      assert blocks[..i + 1][..i] == blocks[..i];
      if b.Block? && b.kind == "toolCall" && b.id.Some? {
        calls := calls + [Call(b.id.value, GetOr(b.name, "unknown"))];
      }
    }
    assert blocks[..|blocks|] == blocks;
  }

  // ---------------------------------------------------------------- the pending map, in insertion order

  function IndexOf(pending: seq<Call>, id: string): (i: nat)
    ensures i <= |pending| && (i < |pending| ==> pending[i].id == id)
    ensures forall j | 0 <= j < i :: pending[j].id != id
  {
    if pending == [] || pending[0].id == id then 0 else 1 + IndexOf(pending[1..], id)
  }

  /** Setting a key the map already holds keeps its place. */
  function Put(pending: seq<Call>, call: Call): seq<Call> {
    var i := IndexOf(pending, call.id);
    if i < |pending| then pending[i := call] else pending + [call]
  }

  function PutAll(pending: seq<Call>, calls: seq<Call>): seq<Call>
    decreases |calls|
  {
    if calls == [] then pending else Put(PutAll(pending, calls[..|calls| - 1]), calls[|calls| - 1])
  }

  function Remove(pending: seq<Call>, id: string): seq<Call> {
    var i := IndexOf(pending, id);
    if i < |pending| then pending[..i] + pending[i + 1..] else pending
  }

  ghost predicate Distinct(pending: seq<Call>) {
    forall i, j | 0 <= i < j < |pending| :: pending[i].id != pending[j].id
  }

  ghost predicate Has(calls: seq<Call>, id: string) {
    exists c :: c in calls && c.id == id
  }

  lemma PutFacts(pending: seq<Call>, call: Call)
    requires Distinct(pending)
    ensures Distinct(Put(pending, call))
    ensures call in Put(pending, call)
    ensures forall c | c in pending && c.id != call.id :: c in Put(pending, call)
    ensures forall c | c in Put(pending, call) :: c == call || (c in pending && c.id != call.id)
  {
    var p := Put(pending, call);
    var i := IndexOf(pending, call.id);
    assert p[i] == call;
    forall c | c in pending && c.id != call.id ensures c in p {
      var j :| 0 <= j < |pending| && pending[j] == c;
      assert p[j] == c;
    }
  }

  lemma PutAllFacts(pending: seq<Call>, calls: seq<Call>)
    requires Distinct(pending)
    ensures Distinct(PutAll(pending, calls))
    ensures forall c | c in PutAll(pending, calls) :: c in pending || c in calls
    ensures forall c | c in pending || c in calls :: Has(PutAll(pending, calls), c.id)
    decreases |calls|
  {
    if calls != [] {
      var last := calls[|calls| - 1];
      var before := PutAll(pending, calls[..|calls| - 1]);
      PutAllFacts(pending, calls[..|calls| - 1]);
      PutFacts(before, last);
      forall c | c in pending || c in calls ensures Has(PutAll(pending, calls), c.id) {
        if c.id != last.id {
          assert c in pending || c in calls[..|calls| - 1];
          assert Has(before, c.id);
        }
      }
    }
  }

  lemma RemoveFacts(pending: seq<Call>, id: string)
    requires Distinct(pending)
    ensures Distinct(Remove(pending, id))
    ensures forall c :: c in Remove(pending, id) <==> c in pending && c.id != id
  {
    var i := IndexOf(pending, id);
    if i < |pending| {
      assert pending == pending[..i] + [pending[i]] + pending[i + 1..];
    }
  }

  // ---------------------------------------------------------------- planning

  /** The time and the outcomes the runner settled, which only shape the inserted results. */
  datatype Context = Context(now: int, outcomes: map<string, Outcome>)

  function ClosingResult(call: Call, cx: Context): Message {
    if call.id in cx.outcomes
    then ToolResult(Some(call.id), call.name, cx.outcomes[call.id].text, cx.outcomes[call.id].isError, cx.now, "")
    else ToolResult(Some(call.id), call.name, INTERRUPTED, true, cx.now, "")
  }

  function Closing(pending: seq<Call>, cx: Context): seq<Message> {
    seq(|pending|, i requires 0 <= i < |pending| => ClosingResult(pending[i], cx))
  }

  /** A replayed message, with where it comes from: the log, or the repair. */
  datatype Item = Kept(message: Message) | Inserted(message: Message)

  datatype Plan = Plan(items: seq<Item>, pending: seq<Call>)

  function AsInserted(messages: seq<Message>): seq<Item> {
    seq(|messages|, i requires 0 <= i < |messages| => Inserted(messages[i]))
  }

  function AsKept(messages: seq<Message>): seq<Item> {
    seq(|messages|, i requires 0 <= i < |messages| => Kept(messages[i]))
  }

  function Strip(items: seq<Item>): seq<Message> {
    seq(|items|, i requires 0 <= i < |items| => items[i].message)
  }

  /** What is left of a replay when its inserted results are erased. */
  function Erase(items: seq<Item>): seq<Message> {
    if items == [] then []
    else Erase(items[..|items| - 1]) + (if items[|items| - 1].Kept? then [items[|items| - 1].message] else [])
  }

  /** Before a message that is no tool result, every open call is closed. */
  function Flush(s: Plan, cx: Context): Plan {
    Plan(s.items + AsInserted(Closing(s.pending, cx)), [])
  }

  function Step(s: Plan, m: Message, cx: Context): Plan {
    if m.ToolResult? then
      Plan(s.items + [Kept(m)], if m.toolCallId.Some? then Remove(s.pending, m.toolCallId.value) else s.pending)
    else
      Plan(Flush(s, cx).items + [Kept(m)], PutAll([], ToolCalls(m)))
  }

  function Scan(s: Plan, messages: seq<Message>, cx: Context): Plan
    decreases |messages|
  {
    if messages == [] then s
    else Step(Scan(s, messages[..|messages| - 1], cx), messages[|messages| - 1], cx)
  }

  /** The replay with its provenance, the trailing repairs included. */
  function Items(messages: seq<Message>, cx: Context): seq<Item> {
    Flush(Scan(Plan([], []), messages, cx), cx).items
  }

  function Replay(messages: seq<Message>, cx: Context): seq<Message> {
    Strip(Items(messages, cx))
  }

  function TrailingRepairs(messages: seq<Message>, cx: Context): seq<Message> {
    Closing(Scan(Plan([], []), messages, cx).pending, cx)
  }

  method ClosePending(pending: seq<Call>, cx: Context) returns (repairs: seq<Message>)
    ensures repairs == Closing(pending, cx)
  {
    repairs := [];
    for i := 0 to |pending|
      invariant repairs == Closing(pending[..i], cx)
    {
      repairs := repairs + [ClosingResult(pending[i], cx)];
    }
    assert pending[..|pending|] == pending;
  }

  /** The loop body of `planSessionReplay`, its two updates made one after the other. */
  method PlanMessage(replay: seq<Message>, pending: seq<Call>, message: Message, cx: Context, ghost s: Plan)
    returns (replay': seq<Message>, pending': seq<Call>)
    requires replay == Strip(s.items) && pending == s.pending
    ensures replay' == Strip(Step(s, message, cx).items) && pending' == Step(s, message, cx).pending
  {
    replay', pending' := replay, pending;
    if message.ToolResult? {
      if message.toolCallId.Some? {
        pending' := Remove(pending', message.toolCallId.value);
      }
    } else {
      var repairs := ClosePending(pending', cx);
      replay' := replay' + repairs;
      pending' := [];
    }
    replay' := replay' + [message];
    var calls := CollectToolCalls(message);
    pending' := PutCalls(pending', calls);
  }

  method PutCalls(pending: seq<Call>, calls: seq<Call>) returns (pending': seq<Call>)
    ensures pending' == PutAll(pending, calls)
  {
    pending' := pending;
    for k := 0 to |calls|
      invariant pending' == PutAll(pending, calls[..k])
    {
      assert calls[..k + 1][..k] == calls[..k];
      pending' := Put(pending', calls[k]);
    }
    assert calls[..|calls|] == calls;
  }

  method PlanSessionReplay(messages: seq<Message>, cx: Context)
    returns (replay: seq<Message>, trailingRepairs: seq<Message>)
    ensures replay == Replay(messages, cx)
    ensures trailingRepairs == TrailingRepairs(messages, cx)
  {
    replay := [];
    var pending: seq<Call> := [];
    for i := 0 to |messages|
      invariant replay == Strip(Scan(Plan([], []), messages[..i], cx).items)
      invariant pending == Scan(Plan([], []), messages[..i], cx).pending
    {
      ScanLast(Plan([], []), messages, i + 1, cx);
      replay, pending := PlanMessage(replay, pending, messages[i], cx, Scan(Plan([], []), messages[..i], cx));
    }
    assert messages[..|messages|] == messages;
    trailingRepairs := ClosePending(pending, cx);
    StripFlush(Scan(Plan([], []), messages, cx), cx);
    replay := replay + trailingRepairs;
  }

  // ---------------------------------------------------------------- the invariant of the scan

  /** The call of message `i` has its result before the next message that is no tool result. */
  ghost predicate Answered(log: seq<Message>, i: nat, id: string) {
    exists j :: i < j < |log| && log[j].ToolResult? && log[j].toolCallId == Some(id)
      && (forall k | i < k < j :: log[k].ToolResult?)
  }

  /** Every live tool call of the log is answered in time: what a model provider accepts. */
  ghost predicate Closed(log: seq<Message>) {
    forall i, c | 0 <= i < |log| && c in ToolCalls(log[i]) :: Answered(log, i, c.id)
  }

  /** At the end of `log`, the call is one of the latest assistant message and has no result. */
  ghost predicate OpenCall(log: seq<Message>, a: nat, c: Call) {
    && a < |log| && c in ToolCalls(log[a])
    && (forall k | a < k < |log| :: log[k].ToolResult? && log[k].toolCallId != Some(c.id))
  }

  ghost predicate IsOpen(log: seq<Message>, c: Call) {
    exists a :: OpenCall(log, a, c)
  }

  ghost predicate PendingIsOpen(log: seq<Message>, pending: seq<Call>) {
    Distinct(pending) && forall c | c in pending :: IsOpen(log, c)
  }

  ghost predicate RestIsPending(log: seq<Message>, pending: seq<Call>) {
    forall i, c | 0 <= i < |log| && c in ToolCalls(log[i]) ::
      Answered(log, i, c.id) || (Has(pending, c.id) && forall k | i < k < |log| :: log[k].ToolResult?)
  }

  /** Message `i` of a replay answers a call that is still open there, of the latest assistant message. */
  ghost predicate AnswersOpenCall(log: seq<Message>, i: nat, cx: Context) {
    i < |log| && exists c :: IsOpen(log[..i], c) && log[i] == ClosingResult(c, cx)
  }

  ghost predicate InsertedAnswers(items: seq<Item>, cx: Context) {
    forall i | 0 <= i < |items| && items[i].Inserted? :: AnswersOpenCall(Strip(items), i, cx)
  }

  lemma AnsweredStays(log: seq<Message>, more: seq<Message>, i: nat, id: string)
    requires Answered(log, i, id)
    ensures Answered(log + more, i, id)
  {
    var j :| i < j < |log| && log[j].ToolResult? && log[j].toolCallId == Some(id)
      && (forall k | i < k < j :: log[k].ToolResult?);
    assert (log + more)[j] == log[j];
  }

  /** Closing the open calls answers them all. */
  lemma FlushCloses(log: seq<Message>, pending: seq<Call>, cx: Context)
    requires RestIsPending(log, pending)
    ensures Closed(log + Closing(pending, cx))
  {
    var after := log + Closing(pending, cx);
    forall i, c | 0 <= i < |after| && c in ToolCalls(after[i]) ensures Answered(after, i, c.id) {
      assert i < |log|;
      if Answered(log, i, c.id) {
        AnsweredStays(log, Closing(pending, cx), i, c.id);
      } else {
        var q :| 0 <= q < |pending| && pending[q].id == c.id;
        assert after[|log| + q] == ClosingResult(pending[q], cx);
      }
    }
  }

  lemma RepairAnswersOpen(log: seq<Message>, pending: seq<Call>, q: nat, cx: Context)
    requires PendingIsOpen(log, pending) && q < |pending|
    ensures AnswersOpenCall(log + Closing(pending, cx), |log| + q, cx)
  {
    var after := log + Closing(pending, cx);
    var c := pending[q];
    assert c in pending;
    var a: nat :| OpenCall(log, a, c);
    assert forall k | |log| <= k < |log| + q :: after[k] == ClosingResult(pending[k - |log|], cx);
    assert OpenCall(after[..|log| + q], a, c);
    assert IsOpen(after[..|log| + q], c);
  }

  lemma FlushAnswersOpen(s: Plan, cx: Context)
    requires PendingIsOpen(Strip(s.items), s.pending) && InsertedAnswers(s.items, cx)
    ensures InsertedAnswers(Flush(s, cx).items, cx)
  {
    var log := Strip(s.items);
    var items := Flush(s, cx).items;
    StripFlush(s, cx);
    forall i | 0 <= i < |items| && items[i].Inserted? ensures AnswersOpenCall(Strip(items), i, cx) {
      if i < |log| {
        assert Strip(items)[..i] == log[..i];
      } else {
        RepairAnswersOpen(log, s.pending, i - |log|, cx);
      }
    }
  }

  lemma KeepAnswersOpen(items: seq<Item>, m: Message, cx: Context)
    requires InsertedAnswers(items, cx)
    ensures InsertedAnswers(items + [Kept(m)], cx)
  {
    var after := Strip(items + [Kept(m)]);
    forall i | 0 <= i < |items| && items[i].Inserted? ensures AnswersOpenCall(after, i, cx) {
      assert after[..i] == Strip(items)[..i];
    }
  }

  lemma ResultStep(log: seq<Message>, pending: seq<Call>, m: Message, left: seq<Call>)
    requires m.ToolResult? && PendingIsOpen(log, pending) && RestIsPending(log, pending)
    requires left == if m.toolCallId.Some? then Remove(pending, m.toolCallId.value) else pending
    ensures PendingIsOpen(log + [m], left) && RestIsPending(log + [m], left)
  {
    if m.toolCallId.Some? {
      RemoveFacts(pending, m.toolCallId.value);
    }
    LeftIsOpen(log, pending, m, left);
    RestIsLeft(log, pending, m, left);
  }

  lemma LeftIsOpen(log: seq<Message>, pending: seq<Call>, m: Message, left: seq<Call>)
    requires m.ToolResult? && PendingIsOpen(log, pending) && Distinct(left)
    requires forall c | c in left :: c in pending && m.toolCallId != Some(c.id)
    ensures PendingIsOpen(log + [m], left)
  {
    forall c | c in left ensures IsOpen(log + [m], c) {
      assert IsOpen(log, c);
      var a: nat :| OpenCall(log, a, c);
      assert OpenCall(log + [m], a, c);
    }
  }

  lemma RestIsLeft(log: seq<Message>, pending: seq<Call>, m: Message, left: seq<Call>)
    requires m.ToolResult? && RestIsPending(log, pending)
    requires forall c | c in pending && m.toolCallId != Some(c.id) :: c in left
    ensures RestIsPending(log + [m], left)
  {
    var after := log + [m];
    forall i, c | 0 <= i < |after| && c in ToolCalls(after[i])
      ensures Answered(after, i, c.id) || (Has(left, c.id) && forall k | i < k < |after| :: after[k].ToolResult?)
    {
      assert i < |log|;
      if Answered(log, i, c.id) {
        AnsweredStays(log, [m], i, c.id);
      } else if m.toolCallId == Some(c.id) {
        assert after[|log|] == m;
      } else {
        var d :| d in pending && d.id == c.id;
        assert d in left;
      }
    }
  }

  lemma OtherStep(log: seq<Message>, m: Message)
    requires !m.ToolResult? && Closed(log)
    ensures PendingIsOpen(log + [m], PutAll([], ToolCalls(m))) && RestIsPending(log + [m], PutAll([], ToolCalls(m)))
  {
    var after := log + [m];
    PutAllFacts([], ToolCalls(m));
    forall c | c in PutAll([], ToolCalls(m)) ensures IsOpen(after, c) {
      assert OpenCall(after, |log|, c);
    }
    forall i, c | 0 <= i < |log| && c in ToolCalls(after[i]) ensures Answered(after, i, c.id) {
      AnsweredStays(log, [m], i, c.id);
    }
  }

  /** What the scan keeps, for the part of the log it has read. */
  ghost predicate ScanInv(s: Plan, messages: seq<Message>, cx: Context) {
    && PendingIsOpen(Strip(s.items), s.pending)
    && RestIsPending(Strip(s.items), s.pending)
    && InsertedAnswers(s.items, cx)
    && Erase(s.items) == messages
  }

  lemma StripFlush(s: Plan, cx: Context)
    ensures Strip(Flush(s, cx).items) == Strip(s.items) + Closing(s.pending, cx)
  {}

  lemma StripAppend(items: seq<Item>, item: Item)
    ensures Strip(items + [item]) == Strip(items) + [item.message]
    ensures Erase(items + [item]) == Erase(items) + (if item.Kept? then [item.message] else [])
  {
    assert (items + [item])[..|items|] == items;
  }

  lemma StepResultInv(s: Plan, messages: seq<Message>, m: Message, cx: Context)
    requires ScanInv(s, messages, cx) && m.ToolResult?
    ensures ScanInv(Step(s, m, cx), messages + [m], cx)
  {
    StripAppend(s.items, Kept(m));
    ResultStep(Strip(s.items), s.pending, m, Step(s, m, cx).pending);
    KeepAnswersOpen(s.items, m, cx);
  }

  lemma StepOtherInv(s: Plan, messages: seq<Message>, m: Message, cx: Context)
    requires ScanInv(s, messages, cx) && !m.ToolResult?
    ensures ScanInv(Step(s, m, cx), messages + [m], cx)
  {
    FlushInv(s, messages, cx);
    var f := Flush(s, cx);
    StripAppend(f.items, Kept(m));
    OtherStep(Strip(f.items), m);
    KeepAnswersOpen(f.items, m, cx);
  }

  lemma FlushInv(s: Plan, messages: seq<Message>, cx: Context)
    requires ScanInv(s, messages, cx)
    ensures var f := Flush(s, cx); Closed(Strip(f.items)) && InsertedAnswers(f.items, cx) && Erase(f.items) == messages
  {
    StripFlush(s, cx);
    FlushCloses(Strip(s.items), s.pending, cx);
    FlushAnswersOpen(s, cx);
    EraseInserted(s.items, Closing(s.pending, cx));
  }

  lemma {:induction false} ScanKeepsInv(messages: seq<Message>, cx: Context)
    ensures ScanInv(Scan(Plan([], []), messages, cx), messages, cx)
    decreases |messages|
  {
    if messages != [] {
      var before := messages[..|messages| - 1];
      var m := messages[|messages| - 1];
      ScanKeepsInv(before, cx);
      assert messages == before + [m];
      if m.ToolResult? {
        StepResultInv(Scan(Plan([], []), before, cx), before, m, cx);
      } else {
        StepOtherInv(Scan(Plan([], []), before, cx), before, m, cx);
      }
    }
  }

  lemma EraseInserted(items: seq<Item>, repairs: seq<Message>)
    ensures Erase(items + AsInserted(repairs)) == Erase(items)
    decreases |repairs|
  {
    var n := |repairs|;
    if n == 0 {
      assert items + AsInserted(repairs) == items;
    } else {
      EraseInserted(items, repairs[..n - 1]);
      assert (items + AsInserted(repairs))[..|items| + n - 1] == items + AsInserted(repairs[..n - 1]);
    }
  }

  // ---------------------------------------------------------------- what the plan promises

  /**
   * The repaired log is one a provider accepts: every live tool call is answered before the next
   * message that is no tool result. Each inserted result answers a call still open there, of the
   * latest assistant message, and erasing the inserted results gives the log back.
   */
  lemma ReplayClosure(messages: seq<Message>, cx: Context)
    ensures Closed(Replay(messages, cx))
    ensures InsertedAnswers(Items(messages, cx), cx)
    ensures Erase(Items(messages, cx)) == messages
  {
    ScanKeepsInv(messages, cx);
    FlushInv(Scan(Plan([], []), messages, cx), messages, cx);
  }

  /** A log that is closed already is scanned without an insertion. */
  lemma {:induction false} ClosedScan(log: seq<Message>, n: nat, cx: Context)
    requires Closed(log) && n <= |log|
    ensures Scan(Plan([], []), log[..n], cx).items == AsKept(log[..n])
    ensures PendingIsOpen(log[..n], Scan(Plan([], []), log[..n], cx).pending)
  {
    ScanKeepsInv(log[..n], cx);
    if n > 0 {
      ClosedScan(log, n - 1, cx);
      ClosedScanStep(log, n, cx);
    }
    assert Strip(AsKept(log[..n])) == log[..n];
  }

  lemma ClosedScanStep(log: seq<Message>, n: nat, cx: Context)
    requires Closed(log) && 0 < n <= |log|
    requires Scan(Plan([], []), log[..n - 1], cx).items == AsKept(log[..n - 1])
    requires PendingIsOpen(log[..n - 1], Scan(Plan([], []), log[..n - 1], cx).pending)
    ensures Scan(Plan([], []), log[..n], cx).items == AsKept(log[..n])
  {
    var before := Scan(Plan([], []), log[..n - 1], cx);
    if !log[n - 1].ToolResult? {
      NothingOpen(log, n - 1, before.pending);
    }
    QuietStep(before, log[n - 1], cx);
    ScanLast(Plan([], []), log, n, cx);
    AsKeptLast(log, n);
  }

  lemma ScanLast(s: Plan, log: seq<Message>, n: nat, cx: Context)
    requires 0 < n <= |log|
    ensures Scan(s, log[..n], cx) == Step(Scan(s, log[..n - 1], cx), log[n - 1], cx)
  {
    assert log[..n][..n - 1] == log[..n - 1];
  }

  lemma AsKeptLast(log: seq<Message>, n: nat)
    requires 0 < n <= |log|
    ensures AsKept(log[..n]) == AsKept(log[..n - 1]) + [Kept(log[n - 1])]
  {}

  lemma QuietStep(s: Plan, m: Message, cx: Context)
    requires m.ToolResult? || s.pending == []
    ensures Step(s, m, cx).items == s.items + [Kept(m)]
  {}

  /** In a closed log no call is open where a message that is no tool result, or the end, follows. */
  lemma NothingOpen(log: seq<Message>, n: nat, pending: seq<Call>)
    requires Closed(log) && n <= |log| && (n < |log| ==> !log[n].ToolResult?)
    requires PendingIsOpen(log[..n], pending)
    ensures pending == []
  {
    if pending != [] {
      assert pending[0] in pending;
      OpenIsUnanswered(log, n, pending[0]);
      assert false;
    }
  }

  lemma OpenIsUnanswered(log: seq<Message>, n: nat, c: Call)
    requires n <= |log| && (n < |log| ==> !log[n].ToolResult?)
    requires IsOpen(log[..n], c)
    ensures !Closed(log)
  {
    var a: nat :| OpenCall(log[..n], a, c);
    if Answered(log, a, c.id) {
      var j :| a < j < |log| && log[j].ToolResult? && log[j].toolCallId == Some(c.id)
        && (forall k | a < k < j :: log[k].ToolResult?);
      NoAnswerAt(log, n, a, c, j);
    }
    assert c in ToolCalls(log[a]);
  }

  lemma NoAnswerAt(log: seq<Message>, n: nat, a: nat, c: Call, j: nat)
    requires n <= |log| && (n < |log| ==> !log[n].ToolResult?) && OpenCall(log[..n], a, c)
    requires a < j < |log| && forall k | a < k < j :: log[k].ToolResult?
    ensures !(log[j].ToolResult? && log[j].toolCallId == Some(c.id))
  {
    if j < n {
      assert log[..n][j] == log[j];
    }
  }

  /** Planning leaves a log alone exactly when it is closed, whatever the time and the outcomes. */
  lemma UnchangedIffClosed(log: seq<Message>, cx: Context)
    ensures Replay(log, cx) == log <==> Closed(log)
    ensures Closed(log) ==> TrailingRepairs(log, cx) == []
  {
    if Closed(log) {
      ClosedScan(log, |log|, cx);
      assert log[..|log|] == log;
      NothingOpen(log, |log|, Scan(Plan([], []), log, cx).pending);
      assert Items(log, cx) == AsKept(log);
    }
    ReplayClosure(log, cx);
  }

  /** The replay is a fixpoint: planning it again, at any time and with any outcomes, adds nothing. */
  lemma ReplayIsFixpoint(messages: seq<Message>, cx: Context, later: Context)
    ensures Replay(Replay(messages, cx), later) == Replay(messages, cx)
    ensures TrailingRepairs(Replay(messages, cx), later) == []
  {
    ReplayClosure(messages, cx);
    UnchangedIffClosed(Replay(messages, cx), later);
  }

  lemma {:induction false} ScanConcat(s: Plan, a: seq<Message>, b: seq<Message>, cx: Context)
    ensures Scan(s, a + b, cx) == Scan(Scan(s, a, cx), b, cx)
    decreases |b|
  {
    if b == [] {
      assert a + b == a;
    } else {
      assert (a + b)[..|a + b| - 1] == a + b[..|b| - 1];
      ScanConcat(s, a, b[..|b| - 1], cx);
    }
  }

  /** The items already planned never influence what is planned next. */
  lemma {:induction false} ScanAppends(s: Plan, messages: seq<Message>, cx: Context)
    ensures Scan(s, messages, cx).pending == Scan(Plan([], s.pending), messages, cx).pending
    ensures Scan(s, messages, cx).items == s.items + Scan(Plan([], s.pending), messages, cx).items
    decreases |messages|
  {
    if messages != [] {
      ScanAppends(s, messages[..|messages| - 1], cx);
    }
  }

  lemma {:induction false} ScanTrailing(s: Plan, n: nat, cx: Context)
    requires n <= |s.pending|
    ensures Scan(s, Closing(s.pending, cx)[..n], cx).items == s.items + AsKept(Closing(s.pending, cx)[..n])
    ensures Scan(s, Closing(s.pending, cx)[..n], cx).pending == s.pending[n..]
  {
    if n > 0 {
      var repairs := Closing(s.pending, cx);
      ScanTrailing(s, n - 1, cx);
      ScanLast(s, repairs, n, cx);
      RemoveHead(s.pending, n);
      AsKeptLast(repairs, n);
      KeepOne(s.items, AsKept(repairs[..n - 1]), Kept(repairs[n - 1]));
    } else {
      assert s.items + AsKept(Closing(s.pending, cx)[..0]) == s.items;
    }
  }

  lemma RemoveHead(pending: seq<Call>, n: nat)
    requires 0 < n <= |pending|
    ensures Remove(pending[n - 1..], pending[n - 1].id) == pending[n..]
  {
    assert IndexOf(pending[n - 1..], pending[n - 1].id) == 0;
  }

  lemma KeepOne(items: seq<Item>, more: seq<Item>, item: Item)
    ensures items + more + [item] == items + (more + [item])
  {}

  lemma StripConcat(a: seq<Item>, b: seq<Item>)
    ensures Strip(a + b) == Strip(a) + Strip(b)
  {}

  /** From a state with nothing open, the rest is planned as if it were a log of its own. */
  lemma ScanFromClosed(s: Plan, more: seq<Message>, cx: Context)
    requires s.pending == []
    ensures Strip(Flush(Scan(s, more, cx), cx).items) == Strip(s.items) + Replay(more, cx)
    ensures Scan(s, more, cx).pending == Scan(Plan([], []), more, cx).pending
  {
    ScanAppends(s, more, cx);
    var t := Scan(Plan([], []), more, cx);
    StripFlush(Scan(s, more, cx), cx);
    StripFlush(t, cx);
    StripConcat(s.items, t.items);
    Onto(Strip(s.items), Strip(t.items), Closing(t.pending, cx));
  }

  lemma PersistedScan(messages: seq<Message>, cx: Context)
    ensures var t := Scan(Plan([], []), messages + TrailingRepairs(messages, cx), cx);
      t.pending == [] && Strip(t.items) == Replay(messages, cx)
  {
    var s := Scan(Plan([], []), messages, cx);
    var repairs := TrailingRepairs(messages, cx);
    ScanTrailing(s, |s.pending|, cx);
    assert repairs[..|s.pending|] == repairs;
    ScanConcat(Plan([], []), messages, repairs, cx);
  }

  /** Once the trailing repairs are persisted, a log replays as itself followed by whatever comes later. */
  lemma PersistedRepairsCompose(messages: seq<Message>, more: seq<Message>, cx: Context)
    ensures Replay(messages + TrailingRepairs(messages, cx) + more, cx) == Replay(messages, cx) + Replay(more, cx)
    ensures TrailingRepairs(messages + TrailingRepairs(messages, cx) + more, cx) == TrailingRepairs(more, cx)
  {
    var log := messages + TrailingRepairs(messages, cx);
    PersistedScan(messages, cx);
    ScanConcat(Plan([], []), log, more, cx);
    ScanFromClosed(Scan(Plan([], []), log, cx), more, cx);
  }

  /** Persisting the trailing repairs turns the log into one that needs no trailing repair. */
  lemma PersistedRepairs(messages: seq<Message>, cx: Context)
    ensures Replay(messages + TrailingRepairs(messages, cx), cx) == Replay(messages, cx)
    ensures TrailingRepairs(messages + TrailingRepairs(messages, cx), cx) == []
  {
    PersistedRepairsCompose(messages, [], cx);
    assert messages + TrailingRepairs(messages, cx) + [] == messages + TrailingRepairs(messages, cx);
  }

  /** Without persisting them, a log still replays as a prefix of any log that goes on with another message. */
  lemma ReplayExtends(messages: seq<Message>, more: seq<Message>, cx: Context)
    requires more != [] ==> !more[0].ToolResult?
    ensures Replay(messages + more, cx) == Replay(messages, cx) + Replay(more, cx)
  {
    var s := Scan(Plan([], []), messages, cx);
    if more == [] {
      assert messages + more == messages;
      assert Replay([], cx) == [];
    } else {
      ScanConcat(Plan([], []), messages, more, cx);
      ScanFirst(s, more, cx);
      ScanFromClosed(Flush(s, cx), more, cx);
    }
  }

  /** A first message that is no tool result flushes what is open, so it might as well be flushed before. */
  lemma ScanFirst(s: Plan, more: seq<Message>, cx: Context)
    requires more != [] && !more[0].ToolResult?
    ensures Scan(s, more, cx) == Scan(Flush(s, cx), more, cx)
  {
    var first, rest := [more[0]], more[1..];
    assert more == first + rest;
    ScanConcat(s, first, rest, cx);
    ScanConcat(Flush(s, cx), first, rest, cx);
    assert first[..0] == [];
    assert Flush(Flush(s, cx), cx).items == Flush(s, cx).items;
  }

  // ---------------------------------------------------------------- continuations that start with tool results

  /** The tool results that a continuation starts with. */
  function Leading(more: seq<Message>): (n: nat)
    ensures n <= |more| && (n < |more| ==> !more[n].ToolResult?)
    ensures forall i | 0 <= i < n :: more[i].ToolResult?
  {
    if more != [] && more[0].ToolResult? then 1 + Leading(more[1..]) else 0
  }

  /** They agree with the trailing repairs as far as both go. */
  predicate Agrees(results: seq<Message>, repairs: seq<Message>) {
    var n := if |results| < |repairs| then |results| else |repairs|;
    results[..n] == repairs[..n]
  }

  lemma {:induction false} ScanResults(s: Plan, results: seq<Message>, cx: Context)
    requires forall i | 0 <= i < |results| :: results[i].ToolResult?
    ensures Strip(Scan(s, results, cx).items) == Strip(s.items) + results
    decreases |results|
  {
    if results != [] {
      var front, last := results[..|results| - 1], results[|results| - 1];
      ScanResults(s, front, cx);
      StripAppend(Scan(s, front, cx).items, Kept(last));
      assert results == front + [last];
      Onto(Strip(s.items), front, [last]);
    } else {
      assert Strip(s.items) + [] == Strip(s.items);
    }
  }

  lemma Onto<T>(a: seq<T>, b: seq<T>, c: seq<T>)
    ensures (a + b) + c == a + (b + c)
  {}

  /** How a continuation replays: its leading results, then what they leave open, then the rest as a log of its own. */
  lemma ReplayContinues(s: Plan, more: seq<Message>, cx: Context)
    ensures var results, rest := more[..Leading(more)], more[Leading(more)..];
      Strip(Flush(Scan(s, more, cx), cx).items)
        == Strip(s.items) + (results + (Closing(Scan(s, results, cx).pending, cx) + Replay(rest, cx)))
  {
    var results, rest := more[..Leading(more)], more[Leading(more)..];
    assert more == results + rest;
    var t := Scan(s, results, cx);
    ScanConcat(s, results, rest, cx);
    ScanResults(s, results, cx);
    StripFlush(t, cx);
    if rest == [] {
      assert Replay([], cx) == [];
    } else {
      ScanFirst(t, rest, cx);
      ScanFromClosed(Flush(t, cx), rest, cx);
    }
    var closing, later := Closing(t.pending, cx), Replay(rest, cx);
    assert Strip(Flush(Scan(s, more, cx), cx).items) == ((Strip(s.items) + results) + closing) + later;
    Onto(Strip(s.items) + results, closing, later);
    Onto(Strip(s.items), results, closing + later);
  }

  lemma PrefixOnto<T>(a: seq<T>, b: seq<T>, c: seq<T>)
    ensures a + b <= a + c <==> b <= c
  {
    if a + b <= a + c {
      assert b == (a + b)[|a|..] && c == (a + c)[|a|..];
      assert (a + c)[..|a + b|] == a + b;
      assert c[..|b|] == (a + c)[|a|..|a| + |b|];
    }
  }

  lemma AgreesIff(repairs: seq<Message>, results: seq<Message>, closing: seq<Message>, later: seq<Message>)
    requires Agrees(results, repairs) && |results| < |repairs| ==> closing == repairs[|results|..]
    ensures repairs <= results + (closing + later) <==> Agrees(results, repairs)
  {
    var all := results + (closing + later);
    if repairs <= all {
      var n := if |results| < |repairs| then |results| else |repairs|;
      assert results[..n] == all[..n] == repairs[..n];
    }
    if Agrees(results, repairs) {
      if |results| < |repairs| {
        assert results[..|results|] == results;
        assert repairs == results + closing;
        assert all == repairs + later;
      } else {
        assert repairs[..|repairs|] == repairs;
        assert all[..|repairs|] == results[..|repairs|];
      }
    }
  }

  lemma ClosingFrom(pending: seq<Call>, n: nat, cx: Context)
    requires n <= |pending|
    ensures Closing(pending[n..], cx) == Closing(pending, cx)[n..]
  {}

  /** Results that are the first repairs leave the other calls open, which get the other repairs. */
  lemma RepairsComeBack(s: Plan, results: seq<Message>, cx: Context)
    ensures var repairs := Closing(s.pending, cx);
      Agrees(results, repairs) && |results| < |repairs| ==>
        Closing(Scan(s, results, cx).pending, cx) == repairs[|results|..]
  {
    var repairs := Closing(s.pending, cx);
    if Agrees(results, repairs) && |results| < |repairs| {
      assert results == repairs[..|results|];
      ScanTrailing(s, |results|, cx);
      ClosingFrom(s.pending, |results|, cx);
    }
  }

  /**
   * A log replays as a prefix of any log that continues it exactly when the tool results that the continuation starts
   * with agree, as far as both go, with the repairs that the log's open calls got.
   */
  lemma ReplayPrefixIff(messages: seq<Message>, more: seq<Message>, cx: Context)
    ensures Replay(messages, cx) <= Replay(messages + more, cx)
      <==> Agrees(more[..Leading(more)], TrailingRepairs(messages, cx))
  {
    var s := Scan(Plan([], []), messages, cx);
    var results, repairs := more[..Leading(more)], Closing(s.pending, cx);
    var closing := Closing(Scan(s, results, cx).pending, cx);
    ScanConcat(Plan([], []), messages, more, cx);
    ReplayContinues(s, more, cx);
    StripFlush(s, cx);
    RepairsComeBack(s, results, cx);
    AgreesIff(repairs, results, closing, Replay(more[Leading(more)..], cx));
    PrefixOnto(Strip(s.items), repairs, results + (closing + Replay(more[Leading(more)..], cx)));
  }

  // ---------------------------------------------------------------- the chained digest

  const GENESIS := seq(64, i => '0')

  function SessionHead(hash: string -> string, texts: seq<string>): string {
    if texts == [] then GENESIS
    else hash(SessionHead(hash, texts[..|texts| - 1]) + hash(texts[|texts| - 1]))
  }

  /** The head of a log, each message given by its JSON text. */
  method ComputeSessionHead(hash: string -> string, texts: seq<string>) returns (head: string)
    ensures head == SessionHead(hash, texts)
  {
    head := GENESIS;
    for i := 0 to |texts|
      invariant head == SessionHead(hash, texts[..i])
    {
      assert texts[..i + 1][..i] == texts[..i];
      head := hash(head + hash(texts[i]));
    }
    assert texts[..|texts|] == texts;
  }

  /** Two texts with one digest, or a text whose digest is the head of the empty log. */
  ghost predicate Collision(hash: string -> string, a: string, b: string) {
    (a != b && hash(a) == hash(b)) || hash(a) == GENESIS
  }

  /** The texts that are hashed for the head of a log. */
  function Hashed(hash: string -> string, texts: seq<string>): set<string> {
    if texts == [] then {}
    else
      var front, last := texts[..|texts| - 1], texts[|texts| - 1];
      Hashed(hash, front) + {last, SessionHead(hash, front) + hash(last)}
  }

  /** Two different logs with one head exhibit a collision of the hash, among the texts that were hashed for them. */
  lemma {:induction false} HeadIdentifiesLog(hash: string -> string, a: seq<string>, b: seq<string>)
    returns (x: string, y: string)
    requires forall t :: |hash(t)| == 64
    requires a != b && SessionHead(hash, a) == SessionHead(hash, b)
    ensures x in Hashed(hash, a) + Hashed(hash, b) && y in Hashed(hash, a) + Hashed(hash, b)
    ensures Collision(hash, x, y)
    decreases |a|
  {
    if a == [] || b == [] {
      var c := if a == [] then b else a;
      x := SessionHead(hash, c[..|c| - 1]) + hash(c[|c| - 1]);
      y := x;
    } else {
      var ha, hb := SessionHead(hash, a[..|a| - 1]), SessionHead(hash, b[..|b| - 1]);
      var ta, tb := a[|a| - 1], b[|b| - 1];
      if ha + hash(ta) != hb + hash(tb) {
        x, y := ha + hash(ta), hb + hash(tb);
      } else if ta != tb {
        assert |ha| == 64 && |hb| == 64;
        assert (ha + hash(ta))[64..] == hash(ta) && (hb + hash(tb))[64..] == hash(tb);
        x, y := ta, tb;
      } else {
        assert |ha| == 64 && |hb| == 64;
        assert (ha + hash(ta))[..64] == ha && (hb + hash(tb))[..64] == hb;
        assert a == a[..|a| - 1] + [ta] && b == b[..|b| - 1] + [tb];
        x, y := HeadIdentifiesLog(hash, a[..|a| - 1], b[..|b| - 1]);
      }
    }
  }

  ghost predicate CollisionFree(hash: string -> string, texts: set<string>) {
    forall x, y | x in texts && y in texts :: !Collision(hash, x, y)
  }

  /** A head identifies its log: without a collision among the texts hashed for them, two logs differ in their heads. */
  lemma HeadsAgreeIff(hash: string -> string, a: seq<string>, b: seq<string>)
    requires forall t :: |hash(t)| == 64
    requires CollisionFree(hash, Hashed(hash, a) + Hashed(hash, b))
    ensures SessionHead(hash, a) == SessionHead(hash, b) <==> a == b
  {
    if a != b && SessionHead(hash, a) == SessionHead(hash, b) {
      var x, y := HeadIdentifiesLog(hash, a, b);
      assert false;
    }
  }
}
