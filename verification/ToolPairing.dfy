/**
 * Which transcript blocks the executions of one tool call id get (apps/agent-runtime/src/proxy-tools.ts,
 * `#requestIdFor`).
 */
module ToolPairing {
  import opened Wrappers
  import opened ToolTranscript
  import opened ToolArguments
  import opened ToolBroker

  // ---------------------------------------------------------------- the greedy choice

  /** The blocks' arguments in canonical form, each as often as it occurs. */
  function BlockArguments(blocks: seq<TranscriptCall>): multiset<Json> {
    if blocks == [] then multiset{} else multiset{Canonical(blocks[0].arguments)} + BlockArguments(blocks[1..])
  }

  /** The executions' arguments in canonical form, each as often as it occurs. */
  function ExecutedArguments(executions: seq<Json>): multiset<Json> {
    if executions == [] then multiset{} else multiset{Canonical(executions[0])} + ExecutedArguments(executions[1..])
  }

  ghost predicate DistinctRequests(blocks: seq<TranscriptCall>) {
    forall i, j | 0 <= i < j < |blocks| :: blocks[i].requestId != blocks[j].requestId
  }

  /**
   * The blocks chosen for a run of executions of one id, in their order. Before each choice, `other`
   * request ids may have been issued for calls of other ids.
   */
  function Choices(blocks: seq<TranscriptCall>, issued: set<string>, executions: seq<Json>,
          other: seq<set<string>>): seq<Option<TranscriptCall>>
    requires |other| == |executions|
    decreases |executions|
  {
    if executions == [] then []
    else
      var chosen := Choose(NotIssued(blocks, issued + other[0]), executions[0]);
      var now := issued + other[0] + (if chosen.Some? then {chosen.value.requestId} else {});
      [chosen] + Choices(blocks, now, executions[1..], other[1..])
  }

  /** Every execution got a block of its own. */
  ghost predicate OwnBlocks(choices: seq<Option<TranscriptCall>>) {
    && (forall i | 0 <= i < |choices| :: choices[i].Some?)
    && (forall i, j | 0 <= i < j < |choices| :: choices[i].value.requestId != choices[j].value.requestId)
  }

  /** Every execution got a block with its own arguments. */
  ghost predicate OwnArguments(choices: seq<Option<TranscriptCall>>, executions: seq<Json>) {
    && |choices| == |executions|
    && forall i | 0 <= i < |choices| :: choices[i].Some? && SameArguments(choices[i].value.arguments, executions[i])
  }

  function Without(blocks: seq<TranscriptCall>, i: nat): seq<TranscriptCall>
    requires i < |blocks|
  {
    blocks[..i] + blocks[i + 1..]
  }

  lemma {:induction false} NotIssuedContents(blocks: seq<TranscriptCall>, issued: set<string>)
    requires DistinctRequests(blocks)
    ensures DistinctRequests(NotIssued(blocks, issued))
    ensures forall b :: b in NotIssued(blocks, issued) <==> b in blocks && b.requestId !in issued
  {
    if blocks != [] {
      NotIssuedContents(blocks[1..], issued);
      assert blocks == [blocks[0]] + blocks[1..];
      assert forall b | b in blocks[1..] :: b.requestId != blocks[0].requestId;
    }
  }

  /** Issuing ids no block has changes no candidate. */
  lemma {:induction false} NotIssuedOther(blocks: seq<TranscriptCall>, issued: set<string>, other: set<string>)
    requires forall b | b in blocks :: b.requestId !in other
    ensures NotIssued(blocks, issued + other) == NotIssued(blocks, issued)
  {
    if blocks != [] {
      assert blocks[0] in blocks;
      NotIssuedOther(blocks[1..], issued, other);
    }
  }

  lemma {:induction false} NotIssuedTwice(blocks: seq<TranscriptCall>, issued: set<string>, more: set<string>)
    ensures NotIssued(blocks, issued + more) == NotIssued(NotIssued(blocks, issued), more)
  {
    if blocks != [] {
      NotIssuedTwice(blocks[1..], issued, more);
      if blocks[0].requestId !in issued {
        var rest := NotIssued(blocks[1..], issued);
        assert ([blocks[0]] + rest)[1..] == rest;
      }
    }
  }

  /** Issuing one block's id takes exactly that block out of the candidates. */
  lemma {:induction false} IssueOne(blocks: seq<TranscriptCall>, i: nat)
    requires DistinctRequests(blocks) && i < |blocks|
    ensures NotIssued(blocks, {blocks[i].requestId}) == Without(blocks, i)
  {
    var id := blocks[i].requestId;
    if i == 0 {
      NoneIssued(blocks[1..], {id});
    } else {
      IssueOne(blocks[1..], i - 1);
      assert Without(blocks, i) == [blocks[0]] + Without(blocks[1..], i - 1);
    }
  }

  lemma {:induction false} NoneIssued(blocks: seq<TranscriptCall>, issued: set<string>)
    requires forall b | b in blocks :: b.requestId !in issued
    ensures NotIssued(blocks, issued) == blocks
  {
    if blocks != [] {
      assert blocks[0] in blocks;
      NoneIssued(blocks[1..], issued);
    }
  }

  lemma {:induction false} ArgumentsWithout(blocks: seq<TranscriptCall>, i: nat)
    requires i < |blocks|
    ensures BlockArguments(blocks) == multiset{Canonical(blocks[i].arguments)} + BlockArguments(Without(blocks, i))
  {
    if i == 0 {
      assert Without(blocks, 0) == blocks[1..];
    } else {
      var rest := Without(blocks[1..], i - 1);
      ArgumentsWithout(blocks[1..], i - 1);
      assert Without(blocks, i) == [blocks[0]] + rest;
      assert ([blocks[0]] + rest)[1..] == rest;
    }
  }

  lemma {:induction false} FindArguments(blocks: seq<TranscriptCall>, a: Json) returns (i: nat)
    requires a in BlockArguments(blocks)
    ensures i < |blocks| && Canonical(blocks[i].arguments) == a
  {
    i := 0;
    if Canonical(blocks[0].arguments) != a {
      i := FindArguments(blocks[1..], a);
      i := i + 1;
    }
  }

  /** One greedy step: the candidate taken, by its index. */
  function Taken(candidates: seq<TranscriptCall>, arguments: Json): (i: nat)
    requires candidates != []
    ensures i < |candidates| && Choose(candidates, arguments) == Some(candidates[i])
  {
    var i := FirstMatch(candidates, arguments);
    if i < |candidates| then i else 0
  }

  lemma StepCandidates(blocks: seq<TranscriptCall>, issued: set<string>, other: set<string>, execution: Json)
    requires DistinctRequests(blocks) && (forall b | b in blocks :: b.requestId !in other)
    requires NotIssued(blocks, issued) != []
    ensures var left := NotIssued(blocks, issued); var i := Taken(left, execution);
      && Choose(NotIssued(blocks, issued + other), execution) == Some(left[i])
      && NotIssued(blocks, issued + other + {left[i].requestId}) == Without(left, i)
  {
    var left := NotIssued(blocks, issued);
    var i := Taken(left, execution);
    NotIssuedOther(blocks, issued, other);
    NotIssuedContents(blocks, issued);
    NotIssuedTwice(blocks, issued + other, {left[i].requestId});
    IssueOne(left, i);
  }

  ghost predicate OthersOnly(blocks: seq<TranscriptCall>, other: seq<set<string>>) {
    forall k, b | 0 <= k < |other| && b in blocks :: b.requestId !in other[k]
  }

  /** What is issued after one step of a run. */
  function After(blocks: seq<TranscriptCall>, issued: set<string>, execution: Json, other: set<string>): set<string>
    requires NotIssued(blocks, issued) != []
  {
    var left := NotIssued(blocks, issued);
    issued + other + {left[Taken(left, execution)].requestId}
  }

  /** One step of a run, while candidates are left. */
  lemma ChoicesStep(blocks: seq<TranscriptCall>, issued: set<string>, executions: seq<Json>, other: seq<set<string>>)
    requires DistinctRequests(blocks) && |other| == |executions| && OthersOnly(blocks, other)
    requires executions != [] && NotIssued(blocks, issued) != []
    ensures var left := NotIssued(blocks, issued); var i := Taken(left, executions[0]);
      var now := After(blocks, issued, executions[0], other[0]);
      && Choices(blocks, issued, executions, other)
           == [Some(left[i])] + Choices(blocks, now, executions[1..], other[1..])
      && NotIssued(blocks, now) == Without(left, i)
      && OthersOnly(blocks, other[1..])
      && BlockArguments(left) == multiset{Canonical(left[i].arguments)} + BlockArguments(NotIssued(blocks, now))
  {
    var left := NotIssued(blocks, issued);
    StepCandidates(blocks, issued, other[0], executions[0]);
    ArgumentsWithout(left, Taken(left, executions[0]));
  }

  lemma OwnBlocksCons(left: seq<TranscriptCall>, i: nat, rest: seq<Option<TranscriptCall>>)
    requires DistinctRequests(left) && i < |left| && OwnBlocks(rest)
    requires forall c | c in rest :: c.Some? && c.value in Without(left, i)
    ensures OwnBlocks([Some(left[i])] + rest)
    ensures forall c | c in [Some(left[i])] + rest :: c.Some? && c.value in left
  {
    forall j | 0 <= j < |rest| ensures rest[j].value.requestId != left[i].requestId && rest[j].value in left {
      assert rest[j] in rest;
    }
  }

  /** While blocks last, every execution gets a block that no earlier one got. */
  lemma {:induction false} GreedyTakesOwn(blocks: seq<TranscriptCall>, issued: set<string>, executions: seq<Json>,
          other: seq<set<string>>)
    requires DistinctRequests(blocks) && |other| == |executions| && OthersOnly(blocks, other)
    requires |executions| <= |NotIssued(blocks, issued)|
    ensures OwnBlocks(Choices(blocks, issued, executions, other))
    ensures forall c | c in Choices(blocks, issued, executions, other) ::
      c.Some? && c.value in NotIssued(blocks, issued)
    decreases |executions|
  {
    if executions != [] {
      ChoicesStep(blocks, issued, executions, other);
      var left, now := NotIssued(blocks, issued), After(blocks, issued, executions[0], other[0]);
      GreedyTakesOwn(blocks, now, executions[1..], other[1..]);
      NotIssuedContents(blocks, issued);
      OwnBlocksCons(left, Taken(left, executions[0]), Choices(blocks, now, executions[1..], other[1..]));
    }
  }

  lemma OwnArgumentsCons(c: TranscriptCall, rest: seq<Option<TranscriptCall>>, executions: seq<Json>)
    requires executions != [] && SameArguments(c.arguments, executions[0]) && OwnArguments(rest, executions[1..])
    ensures OwnArguments([Some(c)] + rest, executions)
  {
    var choices := [Some(c)] + rest;
    forall k | 0 <= k < |choices| ensures choices[k].Some? && SameArguments(choices[k].value.arguments, executions[k]) {
      if k > 0 {
        assert choices[k] == rest[k - 1] && executions[k] == executions[1..][k - 1];
      }
    }
  }

  /** When the blocks left have the arguments of a run of executions, each finds its own, whatever their order. */
  lemma {:induction false} GreedyMatches(blocks: seq<TranscriptCall>, issued: set<string>, executions: seq<Json>,
          other: seq<set<string>>)
    requires DistinctRequests(blocks) && |other| == |executions| && OthersOnly(blocks, other)
    requires ExecutedArguments(executions) <= BlockArguments(NotIssued(blocks, issued))
    ensures OwnArguments(Choices(blocks, issued, executions, other), executions)
    decreases |executions|
  {
    if executions != [] {
      var left := NotIssued(blocks, issued);
      assert Canonical(executions[0]) in ExecutedArguments(executions);
      var found := FindArguments(left, Canonical(executions[0]));
      var i := Taken(left, executions[0]);
      assert SameArguments(left[i].arguments, executions[0]);
      ChoicesStep(blocks, issued, executions, other);
      var now := After(blocks, issued, executions[0], other[0]);
      MultisetTail(Canonical(executions[0]), ExecutedArguments(executions[1..]),
        BlockArguments(NotIssued(blocks, now)));
      GreedyMatches(blocks, now, executions[1..], other[1..]);
      OwnArgumentsCons(left[i], Choices(blocks, now, executions[1..], other[1..]), executions);
    }
  }

  lemma MultisetTail(a: Json, m: multiset<Json>, n: multiset<Json>)
    ensures multiset{a} + m <= multiset{a} + n <==> m <= n
  {
    if multiset{a} + m <= multiset{a} + n {
      forall x ensures m[x] <= n[x] {
        assert (multiset{a} + m)[x] <= (multiset{a} + n)[x];
      }
    }
  }

  /** Conversely, a run of executions that each found their own arguments had arguments of the blocks left. */
  lemma {:induction false} MatchesAreOwn(blocks: seq<TranscriptCall>, issued: set<string>, executions: seq<Json>,
          other: seq<set<string>>)
    requires DistinctRequests(blocks) && |other| == |executions| && OthersOnly(blocks, other)
    requires OwnArguments(Choices(blocks, issued, executions, other), executions)
    ensures ExecutedArguments(executions) <= BlockArguments(NotIssued(blocks, issued))
    decreases |executions|
  {
    if executions != [] {
      var choices := Choices(blocks, issued, executions, other);
      assert choices[0].Some? && SameArguments(choices[0].value.arguments, executions[0]);
      NotIssuedOther(blocks, issued, other[0]);
      assert NotIssued(blocks, issued) != [];
      ChoicesStep(blocks, issued, executions, other);
      var now := After(blocks, issued, executions[0], other[0]);
      var rest := Choices(blocks, now, executions[1..], other[1..]);
      assert choices[1..] == rest;
      MatchesAreOwn(blocks, now, executions[1..], other[1..]);
      MultisetTail(Canonical(executions[0]), ExecutedArguments(executions[1..]),
        BlockArguments(NotIssued(blocks, now)));
    }
  }

  /**
   * For any number of executions of an id, with any of its blocks in the latest message proxied before: while there are
   * blocks left, each execution gets one of its own; and each gets a block with its own arguments exactly when
   * the blocks left have the executions' arguments, each as often at least, in whatever order they come.
   */
  lemma GreedyIsExact(blocks: seq<TranscriptCall>, issued: set<string>, executions: seq<Json>, other: seq<set<string>>)
    requires DistinctRequests(blocks) && |other| == |executions| && OthersOnly(blocks, other)
    ensures |executions| <= |NotIssued(blocks, issued)| ==> OwnBlocks(Choices(blocks, issued, executions, other))
    ensures OwnArguments(Choices(blocks, issued, executions, other), executions)
      <==> ExecutedArguments(executions) <= BlockArguments(NotIssued(blocks, issued))
  {
    if |executions| <= |NotIssued(blocks, issued)| {
      GreedyTakesOwn(blocks, issued, executions, other);
    }
    if ExecutedArguments(executions) <= BlockArguments(NotIssued(blocks, issued)) {
      GreedyMatches(blocks, issued, executions, other);
    }
    if OwnArguments(Choices(blocks, issued, executions, other), executions) {
      MatchesAreOwn(blocks, issued, executions, other);
    }
  }

  // ---------------------------------------------------------------- the blocks of a transcript

  lemma {:induction false} OfIdDistinct(calls: seq<TranscriptCall>, id: string)
    requires DistinctRequests(calls)
    ensures DistinctRequests(OfId(calls, id))
    ensures forall c | c in OfId(calls, id) :: c in calls && c.toolCallId == id
  {
    if calls != [] {
      OfIdDistinct(calls[..|calls| - 1], id);
    }
  }

  lemma {:induction false} OfMessageDistinct(calls: seq<TranscriptCall>, message: nat)
    requires DistinctRequests(calls)
    ensures DistinctRequests(OfMessage(calls, message))
    ensures forall c | c in OfMessage(calls, message) :: c in calls && c.message == message
  {
    if calls != [] {
      OfMessageDistinct(calls[..|calls| - 1], message);
    }
  }

  lemma CallsDistinct(hash: string -> string, messages: seq<Message>)
    requires IdealOn(hash, RawCalls(messages)) && !SpellsReuse(hash, RawCalls(messages))
    ensures DistinctRequests(TranscriptCalls(hash, messages))
  {
    DistinctIffNoSpelledReuse(hash, RawCalls(messages));
  }

  /** The blocks an execution chooses from have pairwise distinct request ids, whenever the transcript's are. */
  lemma LatestBlocksDistinct(hash: string -> string, messages: seq<Message>, id: string)
    requires IdealOn(hash, RawCalls(messages)) && !SpellsReuse(hash, RawCalls(messages))
    ensures DistinctRequests(LatestBlocks(TranscriptCalls(hash, messages), id))
    ensures forall c | c in LatestBlocks(TranscriptCalls(hash, messages), id) ::
      c in TranscriptCalls(hash, messages) && c.toolCallId == id
  {
    CallsDistinct(hash, messages);
    var calls := TranscriptCalls(hash, messages);
    OfIdDistinct(calls, id);
    var own := OfId(calls, id);
    if own != [] {
      OfMessageDistinct(own, own[|own| - 1].message);
    }
  }
}
