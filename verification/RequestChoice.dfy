/** Which request id an execution gets, read off its transcript (apps/agent-runtime/src/proxy-tools.ts). */
module RequestChoice {
  import opened Wrappers
  import opened ToolTranscript
  import opened ToolArguments
  import opened ToolBroker

  // ---------------------------------------------------------------- ids

  const CAPITALS := "ABCDEFGHIJKLMNOPQRSTUVWXYZ"
  const LETTERS := "abcdefghijklmnopqrstuvwxyz"
  const DIGITS := "0123456789"

  predicate IsLetterOrDigit(c: char) {
    c in CAPITALS || c in LETTERS || c in DIGITS
  }

  /** An id is kept as it is exactly when it has up to 128 of these characters, and begins with a letter or a digit. */
  lemma PlainIff(hash: string -> string, id: string)
    ensures IsPlain(id) <==>
      && 1 <= |id| <= 128 && IsLetterOrDigit(id[0])
      && forall i | 1 <= i < |id| :: IsIdChar(id[i])
    ensures ProxyRequestId(hash, id, 0) == if IsPlain(id) then id else hash(id)
  {
    if id != "" {
      AlphanumericIff(id[0]);
    }
    forall i | 1 <= i < |id| ensures IsAlphanumeric(id[i]) || id[i] in "._:-" <==> IsIdChar(id[i]) {
      AlphanumericIff(id[i]);
    }
  }

  predicate IsIdChar(c: char) {
    IsLetterOrDigit(c) || c in "._:-"
  }

  lemma AlphanumericIff(c: char)
    ensures IsAlphanumeric(c) <==> IsLetterOrDigit(c)
  {
    CapitalIff(c);
    LetterIff(c);
    DigitIff(c);
  }

  lemma CapitalIff(c: char)
    ensures 'A' <= c <= 'Z' <==> c in CAPITALS
  {}

  lemma LetterIff(c: char)
    ensures 'a' <= c <= 'z' <==> c in LETTERS
  {}

  lemma DigitIff(c: char)
    ensures '0' <= c <= '9' <==> c in DIGITS
  {}

  // ---------------------------------------------------------------- selections

  /** `part` holds the elements of `all` at the places `at`, in their order. */
  ghost predicate Selects<T(!new)>(all: seq<T>, part: seq<T>, at: seq<nat>) {
    && |part| == |at|
    && (forall k | 0 <= k < |at| :: at[k] < |all| && part[k] == all[at[k]])
    && (forall k, l | 0 <= k < l < |at| :: at[k] < at[l])
  }

  lemma SelectAfter<T(!new)>(all: seq<T>, part: seq<T>, at: seq<nat>, x: T)
    requires Selects(all, part, at)
    ensures Selects(all + [x], part, at) && Selects(all + [x], part + [x], at + [|all|])
  {}

  /** A selection of a selection. */
  lemma SelectTwice<T(!new)>(all: seq<T>, middle: seq<T>, part: seq<T>, outer: seq<nat>, inner: seq<nat>)
    returns (at: seq<nat>)
    requires Selects(all, middle, outer) && Selects(middle, part, inner)
    ensures Selects(all, part, at)
    ensures forall i :: i in at <==> exists k :: k in inner && k < |outer| && outer[k] == i
  {
    at := seq(|inner|, k requires 0 <= k < |inner| => outer[inner[k]]);
    forall i ensures i in at <==> exists k :: k in inner && k < |outer| && outer[k] == i {
      if i in at {
        var k :| 0 <= k < |at| && at[k] == i;
        assert inner[k] in inner;
      }
      if exists k :: k in inner && k < |outer| && outer[k] == i {
        var k :| k in inner && k < |outer| && outer[k] == i;
        var l :| 0 <= l < |inner| && inner[l] == k;
        assert at[l] == i;
      }
    }
  }

  // ---------------------------------------------------------------- the calls of a transcript

  /** A block of an assistant message that calls a tool. */
  predicate IsCallBlock(b: Block, id: string, arguments: Json) {
    b.Block? && b.kind == "toolCall" && b.id == Some(id) && b.arguments == arguments
  }

  predicate IsReply(m: Message) {
    m.Message? && m.role == "assistant" && m.content.Some?
  }

  predicate IsAt(messages: seq<Message>, at: (nat, nat), c: RawCall) {
    && at.0 < |messages| && IsReply(messages[at.0]) && at.1 < |messages[at.0].content.value|
    && IsCallBlock(messages[at.0].content.value[at.1], c.toolCallId, c.arguments) && c.message == at.0
  }

  predicate Before(a: (nat, nat), b: (nat, nat)) {
    a.0 < b.0 || (a.0 == b.0 && a.1 < b.1)
  }

  /** `at` are the places of all blocks that call tools, message by message and in order. */
  ghost predicate AreCallsAt(messages: seq<Message>, calls: seq<RawCall>, at: seq<(nat, nat)>) {
    && |at| == |calls|
    && (forall k | 0 <= k < |at| :: IsAt(messages, at[k], calls[k]))
    && (forall k, l | 0 <= k < l < |at| :: Before(at[k], at[l]))
    && (forall p, c | IsAt(messages, p, c) :: p in at)
  }

  /** The same for the first `n` blocks of the last message, after the calls of the messages before it. */
  ghost predicate AreCallsUpTo(messages: seq<Message>, n: nat, calls: seq<RawCall>, at: seq<(nat, nat)>)
    requires messages != []
  {
    && |at| == |calls|
    && (forall k | 0 <= k < |at| :: IsAt(messages, at[k], calls[k]))
    && (forall k, l | 0 <= k < l < |at| :: Before(at[k], at[l]))
    && (forall k | 0 <= k < |at| :: Before(at[k], (|messages| - 1, n)))
    && (forall p, c | IsAt(messages, p, c) && Before(p, (|messages| - 1, n)) :: p in at)
  }

  lemma EarlierCalls(messages: seq<Message>, m: Message, calls: seq<RawCall>, at: seq<(nat, nat)>)
    requires AreCallsAt(messages, calls, at)
    ensures AreCallsUpTo(messages + [m], 0, calls, at)
  {
    var all := messages + [m];
    forall p, c | IsAt(all, p, c) && Before(p, (|messages|, 0)) ensures p in at {
      assert IsAt(messages, p, c);
    }
    forall k | 0 <= k < |at| ensures IsAt(all, at[k], calls[k]) {
      assert all[at[k].0] == messages[at[k].0];
    }
  }

  lemma NextBlock(messages: seq<Message>, n: nat, calls: seq<RawCall>, at: seq<(nat, nat)>)
    returns (next: seq<(nat, nat)>)
    requires messages != [] && IsReply(messages[|messages| - 1]) && n < |messages[|messages| - 1].content.value|
    requires AreCallsUpTo(messages, n, calls, at)
    ensures AreCallsUpTo(messages, n + 1,
      calls + BlockCall(messages[|messages| - 1].content.value[n], |messages| - 1), next)
  {
    var b, here := messages[|messages| - 1].content.value[n], (|messages| - 1, n);
    if BlockCall(b, |messages| - 1) == [] {
      next := at;
      assert calls + [] == calls;
    } else {
      next := at + [here];
      assert next[|at|] == here;
    }
    forall p, c | IsAt(messages, p, c) && Before(p, (|messages| - 1, n + 1)) ensures p in next {
      if p != here {
        assert Before(p, here) && p in at;
      } else {
        assert IsCallBlock(b, c.toolCallId, c.arguments);
      }
    }
  }

  lemma {:induction false} LastReply(messages: seq<Message>, n: nat, calls: seq<RawCall>, at: seq<(nat, nat)>)
    returns (next: seq<(nat, nat)>)
    requires messages != [] && IsReply(messages[|messages| - 1]) && n <= |messages[|messages| - 1].content.value|
    requires AreCallsUpTo(messages, 0, calls, at)
    ensures AreCallsUpTo(messages, n,
      calls + BlockCalls(messages[|messages| - 1].content.value[..n], |messages| - 1), next)
  {
    var blocks, index := messages[|messages| - 1].content.value, |messages| - 1;
    if n == 0 {
      next := at;
      assert calls + [] == calls;
    } else {
      next := LastReply(messages, n - 1, calls, at);
      next := NextBlock(messages, n - 1, calls + BlockCalls(blocks[..n - 1], index), next);
      assert blocks[..n][..n - 1] == blocks[..n - 1];
      assert calls + BlockCalls(blocks[..n], index)
        == calls + BlockCalls(blocks[..n - 1], index) + BlockCall(blocks[n - 1], index);
    }
  }

  /** The calls of a transcript are those of its blocks, each with the index of its message. */
  lemma {:induction false} CallsAt(messages: seq<Message>) returns (at: seq<(nat, nat)>)
    ensures AreCallsAt(messages, RawCalls(messages), at)
    decreases |messages|
  {
    if messages == [] {
      at := [];
    } else {
      var front, m := messages[..|messages| - 1], messages[|messages| - 1];
      at := CallsAt(front);
      assert messages == front + [m];
      EarlierCalls(front, m, RawCalls(front), at);
      if IsReply(m) {
        var blocks := m.content.value;
        at := LastReply(messages, |blocks|, RawCalls(front), at);
        assert blocks[..|blocks|] == blocks;
        LastReplyIsAll(messages, RawCalls(messages), at);
      } else {
        assert RawCalls(front) + [] == RawCalls(front);
        LastReplyIsAll(messages, RawCalls(messages), at);
      }
    }
  }

  lemma LastReplyIsAll(messages: seq<Message>, calls: seq<RawCall>, at: seq<(nat, nat)>)
    requires messages != []
    requires var m := messages[|messages| - 1];
      AreCallsUpTo(messages, if IsReply(m) then |m.content.value| else 0, calls, at)
    ensures AreCallsAt(messages, calls, at)
  {
    var m := messages[|messages| - 1];
    var end := (|messages| - 1, if IsReply(m) then |m.content.value| else 0);
    forall p, c | IsAt(messages, p, c) ensures p in at {
      assert Before(p, end);
    }
  }

  lemma MessagesInOrder(hash: string -> string, messages: seq<Message>)
    ensures var calls := TranscriptCalls(hash, messages);
      forall i, j | 0 <= i < j < |calls| :: calls[i].message <= calls[j].message
  {
    var at := CallsAt(messages);
    var raw := RawCalls(messages);
    forall i, j | 0 <= i < j < |raw| ensures raw[i].message <= raw[j].message {
      assert IsAt(messages, at[i], raw[i]) && IsAt(messages, at[j], raw[j]) && Before(at[i], at[j]);
    }
  }

  /** The uses of an id before call `i`, counted. */
  function EarlierUses(calls: seq<RawCall>, i: nat): set<nat>
    requires i <= |calls|
  {
    set k: nat | k < i && calls[k].toolCallId == (if i < |calls| then calls[i].toolCallId else "")
  }

  lemma {:induction false} UsesIsCount(calls: seq<RawCall>, id: string, places: set<nat>)
    requires forall k: nat :: k in places <==> k < |calls| && calls[k].toolCallId == id
    ensures Uses(calls, id) == |places|
    decreases |calls|
  {
    if calls == [] {
      assert forall k: nat :: k !in places;
      assert places == {};
    } else {
      var n := |calls| - 1;
      UsesIsCount(calls[..n], id, places - {n});
    }
  }

  /**
   * The calls of a transcript are those of the blocks of its assistant messages, in order, with the index of the
   * message; and the request id of each is its id's proxy id for the number of earlier blocks with the same id.
   */
  lemma TranscriptCallsExact(hash: string -> string, messages: seq<Message>) returns (at: seq<(nat, nat)>)
    ensures var calls := TranscriptCalls(hash, messages);
      && AreCallsAt(messages, RawCalls(messages), at) && |at| == |calls|
      && (forall i | 0 <= i < |calls| ::
           && IsAt(messages, at[i], RawCall(calls[i].toolCallId, calls[i].arguments, calls[i].message))
           && calls[i].requestId
             == ProxyRequestId(hash, calls[i].toolCallId, |EarlierUses(RawCalls(messages), i)|))
  {
    at := CallsAt(messages);
    var raw := RawCalls(messages);
    forall i | 0 <= i < |raw| ensures UseIndex(raw, i) == |EarlierUses(raw, i)| {
      UsesIsCount(raw[..i], raw[i].toolCallId, EarlierUses(raw, i));
    }
  }

  // ---------------------------------------------------------------- the candidates

  /** Call `i` has the id, and no call with the id stands in a later message. */
  predicate IsLatest(calls: seq<TranscriptCall>, id: string, i: nat) {
    && i < |calls| && calls[i].toolCallId == id
    && forall j | 0 <= j < |calls| && calls[j].toolCallId == id :: calls[j].message <= calls[i].message
  }

  /** And its request id has not been issued. */
  predicate IsFree(calls: seq<TranscriptCall>, issued: set<string>, id: string, i: nat) {
    IsLatest(calls, id, i) && calls[i].requestId !in issued
  }

  lemma {:induction false} OfIdAt(calls: seq<TranscriptCall>, id: string) returns (at: seq<nat>)
    ensures Selects(calls, OfId(calls, id), at)
    ensures forall i: nat :: i in at <==> i < |calls| && calls[i].toolCallId == id
    decreases |calls|
  {
    at := [];
    if calls != [] {
      var front, last := calls[..|calls| - 1], calls[|calls| - 1];
      at := OfIdAt(front, id);
      SelectAfter(front, OfId(front, id), at, last);
      assert front + [last] == calls;
      if last.toolCallId == id {
        at := at + [|front|];
      } else {
        assert OfId(front, id) + [] == OfId(front, id);
      }
    }
  }

  lemma {:induction false} OfMessageAt(calls: seq<TranscriptCall>, message: nat) returns (at: seq<nat>)
    ensures Selects(calls, OfMessage(calls, message), at)
    ensures forall i: nat :: i in at <==> i < |calls| && calls[i].message == message
    decreases |calls|
  {
    at := [];
    if calls != [] {
      var front, last := calls[..|calls| - 1], calls[|calls| - 1];
      at := OfMessageAt(front, message);
      SelectAfter(front, OfMessage(front, message), at, last);
      assert front + [last] == calls;
      if last.message == message {
        at := at + [|front|];
      } else {
        assert OfMessage(front, message) + [] == OfMessage(front, message);
      }
    }
  }

  lemma {:induction false} NotIssuedAt(calls: seq<TranscriptCall>, issued: set<string>) returns (at: seq<nat>)
    ensures Selects(calls, NotIssued(calls, issued), at)
    ensures forall i: nat :: i in at <==> i < |calls| && calls[i].requestId !in issued
    decreases |calls|
  {
    at := [];
    if calls != [] {
      var rest := NotIssuedAt(calls[1..], issued);
      at := ShiftedSelection(calls, NotIssued(calls[1..], issued), rest, calls[0].requestId !in issued);
    }
  }

  lemma ShiftedSelection<T(!new)>(all: seq<T>, part: seq<T>, at: seq<nat>, first: bool) returns (shifted: seq<nat>)
    requires all != [] && Selects(all[1..], part, at)
    ensures Selects(all, if first then [all[0]] + part else part, shifted)
    ensures forall i :: i in shifted <==> (i == 0 && first) || (i > 0 && i - 1 in at)
  {
    var moved := Moved(at);
    SelectMoved(all, part, at, moved);
    shifted := if first then [0] + moved else moved;
    SelectFirst(all, part, moved);
  }

  lemma SelectMoved<T(!new)>(all: seq<T>, part: seq<T>, at: seq<nat>, moved: seq<nat>)
    requires all != [] && Selects(all[1..], part, at)
    requires |moved| == |at| && forall k | 0 <= k < |at| :: moved[k] == at[k] + 1
    ensures Selects(all, part, moved)
  {}

  lemma SelectFirst<T(!new)>(all: seq<T>, part: seq<T>, at: seq<nat>)
    requires all != [] && Selects(all, part, at) && forall k | 0 <= k < |at| :: at[k] > 0
    ensures Selects(all, [all[0]] + part, [0] + at)
  {
    var next := [0] + at;
    assert forall k | 0 < k < |next| :: next[k] == at[k - 1];
  }

  lemma Moved(at: seq<nat>) returns (moved: seq<nat>)
    ensures |moved| == |at| && forall k | 0 <= k < |at| :: moved[k] == at[k] + 1
    ensures forall i :: i in moved <==> i > 0 && i - 1 in at
  {
    moved := seq(|at|, k requires 0 <= k < |at| => at[k] + 1);
    forall i | i > 0 && i - 1 in at ensures i in moved {
      var k :| 0 <= k < |at| && at[k] == i - 1;
      assert moved[k] == i;
    }
  }

  /** The candidates of an execution are the free calls of the latest message with its id, in order. */
  lemma CandidatesAt(calls: seq<TranscriptCall>, issued: set<string>, id: string) returns (at: seq<nat>)
    requires forall i, j | 0 <= i < j < |calls| :: calls[i].message <= calls[j].message
    ensures Selects(calls, NotIssued(LatestBlocks(calls, id), issued), at)
    ensures forall i: nat :: i in at <==> IsFree(calls, issued, id, i)
  {
    var latest := LatestAt(calls, id);
    var free := NotIssuedAt(LatestBlocks(calls, id), issued);
    at := SelectTwice(calls, LatestBlocks(calls, id), NotIssued(LatestBlocks(calls, id), issued), latest, free);
    forall i: nat | IsFree(calls, issued, id, i) ensures i in at {
      var k :| 0 <= k < |latest| && latest[k] == i;
      assert k in free;
    }
  }

  lemma LastIsLatest(calls: seq<TranscriptCall>, id: string, own: seq<nat>)
    requires forall i, j | 0 <= i < j < |calls| :: calls[i].message <= calls[j].message
    requires own != [] && (forall k, l | 0 <= k < l < |own| :: own[k] < own[l])
    requires forall i: nat :: i in own <==> i < |calls| && calls[i].toolCallId == id
    ensures own[|own| - 1] in own && IsLatest(calls, id, own[|own| - 1])
  {
    var last := own[|own| - 1];
    assert last in own;
    forall j | 0 <= j < |calls| && calls[j].toolCallId == id ensures calls[j].message <= calls[last].message {
      assert j in own;
      var k :| 0 <= k < |own| && own[k] == j;
    }
  }

  lemma LatestMembers(calls: seq<TranscriptCall>, id: string, part: seq<TranscriptCall>, own: seq<nat>,
          inner: seq<nat>, i: nat)
    requires Selects(calls, part, own) && own != [] && IsLatest(calls, id, own[|own| - 1])
    requires forall i: nat :: i in own <==> i < |calls| && calls[i].toolCallId == id
    requires forall k: nat :: k in inner <==> k < |part| && part[k].message == part[|own| - 1].message
    ensures (exists k :: k in inner && k < |own| && own[k] == i) <==> IsLatest(calls, id, i)
  {
    var last := own[|own| - 1];
    assert last in own;
    if IsLatest(calls, id, i) {
      assert i in own;
      var k :| 0 <= k < |own| && own[k] == i;
      assert calls[last].message <= calls[i].message <= calls[last].message;
      assert k in inner;
    }
    if exists k :: k in inner && k < |own| && own[k] == i {
      var k :| k in inner && k < |own| && own[k] == i;
      assert i in own && calls[i].message == calls[last].message;
    }
  }

  lemma LatestAt(calls: seq<TranscriptCall>, id: string) returns (at: seq<nat>)
    requires forall i, j | 0 <= i < j < |calls| :: calls[i].message <= calls[j].message
    ensures Selects(calls, LatestBlocks(calls, id), at)
    ensures forall i: nat :: i in at <==> IsLatest(calls, id, i)
  {
    var own := OfIdAt(calls, id);
    at := [];
    if own != [] {
      var message := OfId(calls, id)[|own| - 1].message;
      var last := own[|own| - 1];
      var inner := OfMessageAt(OfId(calls, id), message);
      at := SelectTwice(calls, OfId(calls, id), LatestBlocks(calls, id), own, inner);
      LastIsLatest(calls, id, own);
      forall i: nat ensures i in at <==> IsLatest(calls, id, i) {
        LatestMembers(calls, id, OfId(calls, id), own, inner, i);
      }
    } else {
      forall i: nat ensures !IsLatest(calls, id, i) {
        assert i < |calls| && calls[i].toolCallId == id ==> i in own;
      }
    }
  }

  // ---------------------------------------------------------------- the choice

  predicate Fits(calls: seq<TranscriptCall>, issued: set<string>, id: string, arguments: Json, i: nat) {
    IsFree(calls, issued, id, i) && SameArguments(calls[i].arguments, arguments)
  }

  /** The first free call with the executed arguments, or the first free one if none has them. */
  ghost predicate IsChosen(calls: seq<TranscriptCall>, issued: set<string>, id: string, arguments: Json, i: nat) {
    && IsFree(calls, issued, id, i)
    && ((Fits(calls, issued, id, arguments, i) && forall j: nat | j < i :: !Fits(calls, issued, id, arguments, j))
        || ((forall j: nat :: !Fits(calls, issued, id, arguments, j))
            && forall j: nat | j < i :: !IsFree(calls, issued, id, j)))
  }

  ghost predicate FindsBlock(calls: seq<TranscriptCall>, issued: set<string>, id: string) {
    exists i: nat :: IsFree(calls, issued, id, i)
  }

  lemma MatchIsFirst(calls: seq<TranscriptCall>, issued: set<string>, id: string, arguments: Json,
          candidates: seq<TranscriptCall>, at: seq<nat>)
    requires Selects(calls, candidates, at) && forall i: nat :: i in at <==> IsFree(calls, issued, id, i)
    ensures var first := FirstMatch(candidates, arguments);
      && (forall j: nat | Fits(calls, issued, id, arguments, j) :: first < |at| && at[first] <= j)
      && (first < |at| ==> Fits(calls, issued, id, arguments, at[first]))
  {
    var first := FirstMatch(candidates, arguments);
    forall j: nat | Fits(calls, issued, id, arguments, j) ensures first < |at| && at[first] <= j {
      var l :| 0 <= l < |at| && at[l] == j;
      assert candidates[l] == calls[j];
      assert first <= l;
    }
    if first < |at| {
      assert at[first] in at;
    }
  }

  lemma FirstIsFree(calls: seq<TranscriptCall>, issued: set<string>, id: string, at: seq<nat>)
    requires (forall k, l | 0 <= k < l < |at| :: at[k] < at[l]) && at != []
    requires forall i: nat :: i in at <==> IsFree(calls, issued, id, i)
    ensures IsFree(calls, issued, id, at[0]) && forall j: nat | IsFree(calls, issued, id, j) :: at[0] <= j
  {
    assert at[0] in at;
    forall j: nat | IsFree(calls, issued, id, j) ensures at[0] <= j {
      var l :| 0 <= l < |at| && at[l] == j;
    }
  }

  lemma ChosenAt(calls: seq<TranscriptCall>, issued: set<string>, id: string, arguments: Json)
    requires forall i, j | 0 <= i < j < |calls| :: calls[i].message <= calls[j].message
    ensures var chosen := Choose(NotIssued(LatestBlocks(calls, id), issued), arguments);
      && (chosen.Some? <==> FindsBlock(calls, issued, id))
      && (chosen.Some? ==> IsChosenCall(calls, issued, id, arguments, chosen.value))
  {
    var candidates := NotIssued(LatestBlocks(calls, id), issued);
    var at := CandidatesAt(calls, issued, id);
    if candidates == [] {
      assert forall i: nat :: !IsFree(calls, issued, id, i);
    } else {
      MatchIsFirst(calls, issued, id, arguments, candidates, at);
      FirstIsFree(calls, issued, id, at);
      var first := FirstMatch(candidates, arguments);
      assert IsChosen(calls, issued, id, arguments, at[if first < |at| then first else 0]);
    }
  }

  ghost predicate IsChosenCall(calls: seq<TranscriptCall>, issued: set<string>, id: string, arguments: Json,
          c: TranscriptCall)
  {
    exists i: nat :: IsChosen(calls, issued, id, arguments, i) && c == calls[i]
  }

  /**
   * An execution finds a block exactly when the latest message with a block of its tool call id has one that is not
   * issued yet. It then gets the request id of the first of them with its own arguments, or of the first at all.
   * Otherwise it falls back to counting such executions under its id.
   */
  lemma ExecutionGetsLatest(b: Broker, hash: string -> string, id: string, params: Json,
          transcript: Option<seq<Message>>)
    ensures var calls := TranscriptCalls(hash, GetOr(transcript, []));
      var (requestId, next) := RequestIdFor(b, hash, id, params, transcript);
      && next.issued == b.issued + {requestId} && next.pending == b.pending
      && (FindsBlock(calls, b.issued, id) ==>
           && next.fallbackUses == b.fallbackUses
           && exists i: nat :: IsChosen(calls, b.issued, id, params, i) && requestId == calls[i].requestId)
      && (!FindsBlock(calls, b.issued, id) ==>
           && requestId == ProxyRequestId(hash, id, UsesOf(b, BoundedId(hash, id)))
           && forall base :: UsesOf(next, base) == UsesOf(b, base) + (if base == BoundedId(hash, id) then 1 else 0))
  {
    var messages := GetOr(transcript, []);
    MessagesInOrder(hash, messages);
    ChosenAt(TranscriptCalls(hash, messages), b.issued, id, params);
    assert RawCalls([]) == [];
  }

  function UsesOf(b: Broker, base: string): nat {
    if base in b.fallbackUses then b.fallbackUses[base] else 0
  }

  /** An execution that is not refused takes the request id in flight, and emits the request with what was executed. */
  lemma ExecutionIsEmitted(b: Broker, hash: string -> string, operation: string, id: string, params: Json,
          transcript: Option<seq<Message>>, aborted: bool)
    ensures var requestId := RequestIdFor(b, hash, id, params, transcript).0;
      var next := Execute(b, hash, operation, id, params, transcript, aborted);
      && next.calls == b.calls + 1
      && (aborted || IsPending(b, requestId) ==>
           && next.emitted == b.emitted && next.pending == b.pending
           && next.settled == b.settled + [Settlement(b.calls, false)])
      && (!aborted && !IsPending(b, requestId) ==>
           && next.emitted == b.emitted + [ToolRequest(requestId, BoundedId(hash, id), operation, params)]
           && next.pending == b.pending + [PendingCall(requestId, b.calls)] && next.settled == b.settled
           && IsPending(next, requestId))
  {
    var requestId := RequestIdFor(b, hash, id, params, transcript).0;
    var pending := b.pending + [PendingCall(requestId, b.calls)];
    assert pending[|b.pending|].requestId == requestId;
    assert IndexOf(pending, requestId) < |pending|;
  }

  // ---------------------------------------------------------------- executions without a block

  /** An execution that finds no block, under this bounded id. */
  ghost predicate FallsBack(b: Broker, hash: string -> string, op: Op, base: string) {
    && op.ExecuteOp? && !op.aborted && BoundedId(hash, op.id) == base
    && !FindsBlock(TranscriptCalls(hash, GetOr(op.transcript, [])), b.issued, op.id)
  }

  ghost function Fallbacks(b: Broker, hash: string -> string, ops: seq<Op>, base: string): nat
    decreases |ops|
  {
    if ops == [] then 0
    else (if FallsBack(b, hash, ops[0], base) then 1 else 0) + Fallbacks(Apply(b, hash, ops[0]), hash, ops[1..], base)
  }

  lemma StepFallsBack(b: Broker, hash: string -> string, op: Op, base: string)
    ensures UsesOf(Apply(b, hash, op), base) == UsesOf(b, base) + (if FallsBack(b, hash, op, base) then 1 else 0)
  {
    match op
    case ExecuteOp(operation, id, params, transcript, aborted) => ExecutionFallsBack(b, hash, op, base);
    case CancelAllOp(reason) => CancelAllUses(b, reason);
    case _ =>
  }

  lemma ExecutionFallsBack(b: Broker, hash: string -> string, op: Op, base: string)
    requires op.ExecuteOp?
    ensures UsesOf(Apply(b, hash, op), base) == UsesOf(b, base) + (if FallsBack(b, hash, op, base) then 1 else 0)
  {
    if !op.aborted {
      ExecutionGetsLatest(b, hash, op.id, op.params, op.transcript);
      var issued := RequestIdFor(b, hash, op.id, op.params, op.transcript).1;
      assert Apply(b, hash, op).fallbackUses == issued.fallbackUses;
    }
  }

  lemma {:induction false} CancelAllUses(b: Broker, reason: string)
    ensures CancelAll(b, reason).fallbackUses == b.fallbackUses
    decreases |b.pending|
  {
    if b.pending != [] {
      CancelAllUses(SettleCancelled(b, 0).(emitted := b.emitted + [ToolCancel(b.pending[0].requestId, reason)]),
        reason);
    }
  }

  lemma {:induction false} RunFallsBack(b: Broker, hash: string -> string, ops: seq<Op>, base: string)
    ensures UsesOf(Run(b, hash, ops), base) == UsesOf(b, base) + Fallbacks(b, hash, ops, base)
    decreases |ops|
  {
    if ops != [] {
      StepFallsBack(b, hash, ops[0], base);
      RunFallsBack(Apply(b, hash, ops[0]), hash, ops[1..], base);
    }
  }

  /** Over every run, an execution that finds no block gets the proxy id for the number of such before it. */
  lemma FallbacksAreNumbered(hash: string -> string, ops: seq<Op>, id: string, params: Json,
          transcript: Option<seq<Message>>)
    requires !FindsBlock(TranscriptCalls(hash, GetOr(transcript, [])), Run(Init(), hash, ops).issued, id)
    ensures RequestIdFor(Run(Init(), hash, ops), hash, id, params, transcript).0
      == ProxyRequestId(hash, id, Fallbacks(Init(), hash, ops, BoundedId(hash, id)))
  {
    ExecutionGetsLatest(Run(Init(), hash, ops), hash, id, params, transcript);
    RunFallsBack(Init(), hash, ops, BoundedId(hash, id));
  }
}
