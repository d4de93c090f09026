/**
 * The request ids of the tool calls of a transcript (apps/agent-runtime/src/proxy-tools.ts).
 *
 * `hash` stands for `call_` followed by the first 32 hex digits of the SHA-256 of a text.
 */
module ToolTranscript {
  import opened Wrappers
  import Decimal

  /** A JSON value; a number is kept as the text `String` gives it, an object as its entries in order. */
  datatype Json =
    | Null
    | Undefined
    | Boolean(value: bool)
    | Number(text: string)
    | Text(chars: string)
    | Array(items: seq<Json>)
    | Object(entries: seq<Entry>)

  datatype Entry = Entry(key: string, item: Json)

  /** A content block; `Opaque` stands for a block that is no JSON object. */
  datatype Block = Opaque | Block(kind: string, id: Option<string>, arguments: Json)

  /** A transcript entry; `Other` stands for one that is no JSON object. */
  datatype Message = Other | Message(role: string, content: Option<seq<Block>>)

  /** A tool call block and the index of its message. */
  datatype RawCall = RawCall(toolCallId: string, arguments: Json, message: nat)

  datatype TranscriptCall = TranscriptCall(toolCallId: string, arguments: Json, requestId: string, message: nat)

  // ---------------------------------------------------------------- ids

  predicate IsAlphanumeric(c: char) {
    'A' <= c <= 'Z' || 'a' <= c <= 'z' || '0' <= c <= '9'
  }

  /** Ids that need no hashing: `[A-Za-z0-9][A-Za-z0-9._:-]{0,127}`. */
  predicate IsPlain(value: string) {
    && 1 <= |value| <= 128
    && IsAlphanumeric(value[0])
    && forall i | 1 <= i < |value| :: IsAlphanumeric(value[i]) || value[i] in "._:-"
  }

  function BoundedId(hash: string -> string, value: string): string {
    if IsPlain(value) then value else hash(value)
  }

  /** The text hashed for a repeated use of an id. */
  function ReuseText(hash: string -> string, id: string, use: nat): string {
    BoundedId(hash, id) + "#" + Decimal.Print(use)
  }

  function ProxyRequestId(hash: string -> string, id: string, use: nat): string {
    if use == 0 then BoundedId(hash, id) else hash(ReuseText(hash, id, use))
  }

  // ---------------------------------------------------------------- the transcript's calls

  function BlockCall(b: Block, message: nat): seq<RawCall> {
    if b.Block? && b.kind == "toolCall" && b.id.Some? then [RawCall(b.id.value, b.arguments, message)] else []
  }

  function BlockCalls(blocks: seq<Block>, message: nat): seq<RawCall> {
    if blocks == [] then []
    else BlockCalls(blocks[..|blocks| - 1], message) + BlockCall(blocks[|blocks| - 1], message)
  }

  function MessageCalls(m: Message, message: nat): seq<RawCall> {
    if m.Message? && m.role == "assistant" && m.content.Some? then BlockCalls(m.content.value, message) else []
  }

  /** Every tool call block of a transcript, in order. */
  function RawCalls(messages: seq<Message>): seq<RawCall> {
    if messages == [] then []
    else RawCalls(messages[..|messages| - 1]) + MessageCalls(messages[|messages| - 1], |messages| - 1)
  }

  /** How many blocks use this id. */
  function Uses(calls: seq<RawCall>, id: string): nat {
    if calls == [] then 0
    else Uses(calls[..|calls| - 1], id) + (if calls[|calls| - 1].toolCallId == id then 1 else 0)
  }

  /** The use index of block `i`: the number of earlier blocks with the same id. */
  function UseIndex(calls: seq<RawCall>, i: nat): nat
    requires i < |calls|
  {
    Uses(calls[..i], calls[i].toolCallId)
  }

  function RequestId(hash: string -> string, calls: seq<RawCall>, i: nat): string
    requires i < |calls|
  {
    ProxyRequestId(hash, calls[i].toolCallId, UseIndex(calls, i))
  }

  function Numbered(hash: string -> string, calls: seq<RawCall>): (r: seq<TranscriptCall>) {
    seq(|calls|, i requires 0 <= i < |calls| =>
      TranscriptCall(calls[i].toolCallId, calls[i].arguments, RequestId(hash, calls, i), calls[i].message))
  }

  function TranscriptCalls(hash: string -> string, messages: seq<Message>): seq<TranscriptCall> {
    Numbered(hash, RawCalls(messages))
  }

  lemma NumberedAppend(hash: string -> string, calls: seq<RawCall>, c: RawCall)
    ensures Numbered(hash, calls + [c])
      == Numbered(hash, calls)
        + [TranscriptCall(c.toolCallId, c.arguments,
            ProxyRequestId(hash, c.toolCallId, Uses(calls, c.toolCallId)), c.message)]
    ensures forall id :: Uses(calls + [c], id) == Uses(calls, id) + (if c.toolCallId == id then 1 else 0)
  {
    assert (calls + [c])[..|calls|] == calls;
    assert forall i | 0 <= i < |calls| :: (calls + [c])[..i] == calls[..i];
  }

  /** The map `seen` counts the uses of every id so far. */
  ghost predicate CountsUses(seen: map<string, nat>, calls: seq<RawCall>) {
    forall id :: Uses(calls, id) == if id in seen then seen[id] else 0
  }

  method NumberBlock(hash: string -> string, id: string, arguments: Json, message: nat, seen: map<string, nat>,
          calls: seq<TranscriptCall>, ghost raw: seq<RawCall>)
    returns (seen': map<string, nat>, calls': seq<TranscriptCall>)
    requires calls == Numbered(hash, raw) && CountsUses(seen, raw)
    ensures calls' == Numbered(hash, raw + [RawCall(id, arguments, message)])
    ensures CountsUses(seen', raw + [RawCall(id, arguments, message)])
  {
    NumberedAppend(hash, raw, RawCall(id, arguments, message));
    var use := if id in seen then seen[id] else 0;
    seen' := seen[id := use + 1];
    calls' := calls + [TranscriptCall(id, arguments, ProxyRequestId(hash, id, use), message)];
  }

  /** The loop over one message's blocks. */
  method NumberBlocks(hash: string -> string, blocks: seq<Block>, message: nat, seen: map<string, nat>,
          calls: seq<TranscriptCall>, ghost raw: seq<RawCall>)
    returns (seen': map<string, nat>, calls': seq<TranscriptCall>)
    requires calls == Numbered(hash, raw) && CountsUses(seen, raw)
    ensures calls' == Numbered(hash, raw + BlockCalls(blocks, message))
    ensures CountsUses(seen', raw + BlockCalls(blocks, message))
  {
    seen', calls' := seen, calls;
    ghost var sofar := raw;
    for i := 0 to |blocks|
      invariant sofar == raw + BlockCalls(blocks[..i], message)
      invariant calls' == Numbered(hash, sofar) && CountsUses(seen', sofar)
    {
      assert blocks[..i + 1][..i] == blocks[..i];
      if blocks[i].Opaque? || blocks[i].kind != "toolCall" || blocks[i].id.None? {
        continue;
      }
      seen', calls' := NumberBlock(hash, blocks[i].id.value, blocks[i].arguments, message, seen', calls', sofar);
      sofar := sofar + BlockCall(blocks[i], message);
    }
    assert blocks[..|blocks|] == blocks;
  }

  method TranscriptToolCalls(hash: string -> string, messages: seq<Message>) returns (calls: seq<TranscriptCall>)
    ensures calls == TranscriptCalls(hash, messages)
  {
    var seen: map<string, nat> := map[];
    calls := [];
    for index := 0 to |messages|
      invariant calls == TranscriptCalls(hash, messages[..index])
      invariant CountsUses(seen, RawCalls(messages[..index]))
    {
      var message := messages[index];
      assert messages[..index + 1][..index] == messages[..index];
      if message.Other? || message.role != "assistant" || message.content.None? {
        assert RawCalls(messages[..index]) + [] == RawCalls(messages[..index]);
        continue;
      }
      seen, calls := NumberBlocks(hash, message.content.value, index, seen, calls, RawCalls(messages[..index]));
    }
    assert messages[..|messages|] == messages;
  }

  // ---------------------------------------------------------------- prefix stability

  lemma {:induction false} RawCallsExtend(messages: seq<Message>, more: seq<Message>)
    ensures RawCalls(messages) <= RawCalls(messages + more)
  {
    if more == [] {
      assert messages + more == messages;
    } else {
      RawCallsExtend(messages, more[..|more| - 1]);
      assert (messages + more)[..|messages + more| - 1] == messages + more[..|more| - 1];
    }
  }

  /** Extending a transcript never changes the ids of its earlier blocks: a replay derives the same ids. */
  lemma PrefixStable(hash: string -> string, messages: seq<Message>, more: seq<Message>)
    ensures TranscriptCalls(hash, messages) <= TranscriptCalls(hash, messages + more)
  {
    RawCallsExtend(messages, more);
    var a, b := RawCalls(messages), RawCalls(messages + more);
    forall i | 0 <= i < |a| ensures Numbered(hash, a)[i] == Numbered(hash, b)[i] {
      assert a[..i] == b[..i];
    }
  }

  // ---------------------------------------------------------------- distinctness

  /** The texts hashed to number block `i`. */
  ghost function HashedTexts(hash: string -> string, calls: seq<RawCall>, i: nat): set<string>
    requires i < |calls|
  {
    (if IsPlain(calls[i].toolCallId) then {} else {calls[i].toolCallId})
    + (if UseIndex(calls, i) == 0 then {} else {ReuseText(hash, calls[i].toolCallId, UseIndex(calls, i))})
  }

  /** The hash is ideal on the texts of one transcript: no collision among them, and no digest among its plain ids. */
  ghost predicate IdealOn(hash: string -> string, calls: seq<RawCall>) {
    && (forall i, j, a, b | 0 <= i < |calls| && 0 <= j < |calls| && a in HashedTexts(hash, calls, i)
         && b in HashedTexts(hash, calls, j) ::
          hash(a) == hash(b) ==> a == b)
    && (forall i, j, a | 0 <= i < |calls| && 0 <= j < |calls| && a in HashedTexts(hash, calls, i)
         && IsPlain(calls[j].toolCallId) ::
          hash(a) != calls[j].toolCallId)
  }

  /** Some block's own id spells the text hashed for the reuse of another. */
  ghost predicate SpellsReuse(hash: string -> string, calls: seq<RawCall>) {
    exists i, j :: 0 <= i < |calls| && 0 <= j < |calls| && UseIndex(calls, i) >= 1
      && calls[j].toolCallId == ReuseText(hash, calls[i].toolCallId, UseIndex(calls, i))
  }

  ghost predicate DistinctIds(hash: string -> string, calls: seq<RawCall>) {
    forall i, j | 0 <= i < j < |calls| :: RequestId(hash, calls, i) != RequestId(hash, calls, j)
  }

  lemma {:induction false} UsesGrow(calls: seq<RawCall>, i: nat, j: nat, id: string)
    requires i <= j <= |calls|
    ensures Uses(calls[..i], id) <= Uses(calls[..j], id)
    ensures i < j && calls[i].toolCallId == id ==> Uses(calls[..i], id) < Uses(calls[..j], id)
    decreases j - i
  {
    if i < j {
      UsesGrow(calls, i, j - 1, id);
      assert calls[..j][..j - 1] == calls[..j - 1];
    }
  }

  /** The first block with an id has use index zero. */
  lemma {:induction false} FirstUse(calls: seq<RawCall>, j: nat) returns (first: nat)
    requires j < |calls|
    ensures first < |calls| && calls[first].toolCallId == calls[j].toolCallId && UseIndex(calls, first) == 0
    decreases j
  {
    first := j;
    if UseIndex(calls, j) > 0 {
      var k := EarlierUse(calls[..j], calls[j].toolCallId);
      first := FirstUse(calls, k);
    }
  }

  lemma {:induction false} EarlierUse(calls: seq<RawCall>, id: string) returns (k: nat)
    requires Uses(calls, id) > 0
    ensures k < |calls| && calls[k].toolCallId == id
    decreases |calls|
  {
    k := |calls| - 1;
    if calls[k].toolCallId != id {
      k := EarlierUse(calls[..k], id);
    }
  }

  lemma BoundedIdInjective(hash: string -> string, calls: seq<RawCall>, i: nat, j: nat)
    requires IdealOn(hash, calls) && i < |calls| && j < |calls|
    requires BoundedId(hash, calls[i].toolCallId) == BoundedId(hash, calls[j].toolCallId)
    ensures calls[i].toolCallId == calls[j].toolCallId
  {
    var a, b := calls[i].toolCallId, calls[j].toolCallId;
    if !IsPlain(a) {
      assert a in HashedTexts(hash, calls, i);
    }
    if !IsPlain(b) {
      assert b in HashedTexts(hash, calls, j);
    }
  }

  lemma SameReuseText(hash: string -> string, calls: seq<RawCall>, i: nat, j: nat)
    requires IdealOn(hash, calls) && i < j < |calls|
    requires UseIndex(calls, i) >= 1 && UseIndex(calls, j) >= 1
    ensures ReuseText(hash, calls[i].toolCallId, UseIndex(calls, i))
      != ReuseText(hash, calls[j].toolCallId, UseIndex(calls, j))
  {
    var a, b := calls[i].toolCallId, calls[j].toolCallId;
    if ReuseText(hash, a, UseIndex(calls, i)) == ReuseText(hash, b, UseIndex(calls, j)) {
      Decimal.SuffixIsUnique(BoundedId(hash, a), UseIndex(calls, i), BoundedId(hash, b), UseIndex(calls, j));
      BoundedIdInjective(hash, calls, i, j);
      UsesGrow(calls, i, j, a);
      assert false;
    }
  }

  /** A first use and a reuse share an id only when the first use's own id spells the reuse. */
  lemma FirstAgainstReuse(hash: string -> string, calls: seq<RawCall>, i: nat, j: nat)
    requires IdealOn(hash, calls) && !SpellsReuse(hash, calls) && i < |calls| && j < |calls|
    requires UseIndex(calls, i) == 0 && UseIndex(calls, j) >= 1
    ensures RequestId(hash, calls, i) != RequestId(hash, calls, j)
  {
    var text := ReuseText(hash, calls[j].toolCallId, UseIndex(calls, j));
    assert text in HashedTexts(hash, calls, j);
    if !IsPlain(calls[i].toolCallId) {
      assert calls[i].toolCallId in HashedTexts(hash, calls, i);
    }
  }

  /**
   * The request ids of a transcript are pairwise distinct exactly when no raw id spells the text
   * hashed for the reuse of another: `x, x, x#1` gives one request id twice.
   */
  lemma DistinctIffNoSpelledReuse(hash: string -> string, calls: seq<RawCall>)
    requires IdealOn(hash, calls)
    ensures DistinctIds(hash, calls) <==> !SpellsReuse(hash, calls)
  {
    if !SpellsReuse(hash, calls) {
      forall i, j | 0 <= i < j < |calls| ensures RequestId(hash, calls, i) != RequestId(hash, calls, j) {
        PairDistinct(hash, calls, i, j);
      }
    } else {
      SpelledReuseCollides(hash, calls);
    }
  }

  lemma PairDistinct(hash: string -> string, calls: seq<RawCall>, i: nat, j: nat)
    requires IdealOn(hash, calls) && !SpellsReuse(hash, calls) && i < j < |calls|
    ensures RequestId(hash, calls, i) != RequestId(hash, calls, j)
  {
    var u, v := UseIndex(calls, i), UseIndex(calls, j);
    if u == 0 && v == 0 {
      UsesGrow(calls, i, j, calls[i].toolCallId);
      if RequestId(hash, calls, i) == RequestId(hash, calls, j) {
        BoundedIdInjective(hash, calls, i, j);
      }
    } else if u == 0 {
      FirstAgainstReuse(hash, calls, i, j);
    } else if v == 0 {
      FirstAgainstReuse(hash, calls, j, i);
    } else {
      SameReuseText(hash, calls, i, j);
      assert ReuseText(hash, calls[i].toolCallId, u) in HashedTexts(hash, calls, i);
      assert ReuseText(hash, calls[j].toolCallId, v) in HashedTexts(hash, calls, j);
    }
  }

  lemma SpelledReuseCollides(hash: string -> string, calls: seq<RawCall>)
    requires SpellsReuse(hash, calls)
    ensures !DistinctIds(hash, calls)
  {
    var i, j :| 0 <= i < |calls| && 0 <= j < |calls| && UseIndex(calls, i) >= 1
      && calls[j].toolCallId == ReuseText(hash, calls[i].toolCallId, UseIndex(calls, i));
    var first := FirstUse(calls, j);
    assert calls[j].toolCallId[|BoundedId(hash, calls[i].toolCallId)|] == '#';
    assert !IsPlain(calls[j].toolCallId);
    assert RequestId(hash, calls, first) == RequestId(hash, calls, i);
    assert first != i;
  }

  /** The smallest such transcript: an id, the same id again, and the text of its reuse as an id. */
  lemma SpelledReuseExample(hash: string -> string)
    ensures var calls := [RawCall("x", Null, 0), RawCall("x", Null, 0), RawCall("x#1", Null, 0)];
      RequestId(hash, calls, 1) == RequestId(hash, calls, 2) == hash("x#1")
  {
    var calls := [RawCall("x", Null, 0), RawCall("x", Null, 0), RawCall("x#1", Null, 0)];
    assert calls[..1] == [calls[0]] && calls[..2] == [calls[0], calls[1]];
    assert calls[..2][..1] == [calls[0]];
    assert calls[..1][..0] == [];
    assert UseIndex(calls, 1) == 1 && UseIndex(calls, 2) == 0;
    assert IsPlain("x");
    var reuse := "x#1";
    assert reuse[1] == '#' && !(IsAlphanumeric(reuse[1]) || reuse[1] in "._:-");
    assert !IsPlain(reuse);
    assert Decimal.Print(1) == ['1'];
    assert ReuseText(hash, "x", 1) == "x#1";
  }
}
