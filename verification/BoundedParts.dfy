/**
 * The bounds of a JSON value, stated on the values within it (apps/agent-runtime/src/protocol-schemas.ts,
 * `isBoundedJson`), with texts measured in UTF-8 (section 3 of RFC 3629).
 */
module BoundedParts {
  import opened BoundedJson

  // ---------------------------------------------------------------- UTF-8

  type byte = b: int | 0 <= b < 256

  type Scalar = c: int | 0 <= c < 0x11_0000

  /** The code points of a text; an unpaired surrogate stands for U+FFFD. */
  function Scalars(s: Units): seq<Scalar> {
    if s == [] then []
    else if |s| >= 2 && 0xD800 <= s[0] <= 0xDBFF && 0xDC00 <= s[1] <= 0xDFFF then
      [0x1_0000 + (s[0] as int - 0xD800) * 0x400 + (s[1] as int - 0xDC00)] + Scalars(s[2..])
    else [if 0xD800 <= s[0] <= 0xDFFF then 0xFFFD else s[0]] + Scalars(s[1..])
  }

  function Encode(c: Scalar): seq<byte> {
    if c < 0x80 then [c]
    else if c < 0x800 then [0xC0 + c / 0x40, 0x80 + c % 0x40]
    else if c < 0x1_0000 then [0xE0 + c / 0x1000, 0x80 + c / 0x40 % 0x40, 0x80 + c % 0x40]
    else [0xF0 + c / 0x4_0000, 0x80 + c / 0x1000 % 0x40, 0x80 + c / 0x40 % 0x40, 0x80 + c % 0x40]
  }

  function EncodeAll(scalars: seq<Scalar>): seq<byte> {
    if scalars == [] then [] else Encode(scalars[0]) + EncodeAll(scalars[1..])
  }

  /** The code point that a byte sequence begins with, and its length, if there are bytes enough. */
  function DecodeFirst(bytes: seq<byte>): (int, nat) {
    if bytes == [] then (0, 0)
    else if bytes[0] < 0x80 then (bytes[0], 1)
    else if bytes[0] < 0xE0 && |bytes| >= 2 then ((bytes[0] as int - 0xC0) * 0x40 + (bytes[1] as int - 0x80), 2)
    else if bytes[0] < 0xF0 && |bytes| >= 3 then
      ((bytes[0] as int - 0xE0) * 0x1000 + (bytes[1] as int - 0x80) * 0x40 + (bytes[2] as int - 0x80), 3)
    else if |bytes| >= 4 then
      ((bytes[0] as int - 0xF0) * 0x4_0000 + (bytes[1] as int - 0x80) * 0x1000
        + (bytes[2] as int - 0x80) * 0x40 + (bytes[3] as int - 0x80), 4)
    else (0, 0)
  }

  /** The encoding is one: its code point can be read off the bytes, whatever follows them. */
  lemma EncodingDecodes(c: Scalar, rest: seq<byte>)
    ensures DecodeFirst(Encode(c) + rest) == (c, |Encode(c)|)
  {
    if c < 0x80 {
      assert (Encode(c) + rest)[0] == c;
    } else if c < 0x800 {
      DecodesTwo(c, Encode(c) + rest);
    } else if c < 0x1_0000 {
      DecodesThree(c, Encode(c) + rest);
    } else {
      DecodesFour(c, Encode(c) + rest);
    }
  }

  lemma DecodesTwo(c: Scalar, bytes: seq<byte>)
    requires 0x80 <= c < 0x800 && |bytes| >= 2 && bytes[..2] == Encode(c)
    ensures DecodeFirst(bytes) == (c, 2)
  {
    assert bytes[0] == bytes[..2][0] && bytes[1] == bytes[..2][1];
  }

  lemma DecodesThree(c: Scalar, bytes: seq<byte>)
    requires 0x800 <= c < 0x1_0000 && |bytes| >= 3 && bytes[..3] == Encode(c)
    ensures DecodeFirst(bytes) == (c, 3)
  {
    assert bytes[0] == bytes[..3][0] && bytes[1] == bytes[..3][1] && bytes[2] == bytes[..3][2];
    assert c == c / 0x1000 * 0x1000 + c / 0x40 % 0x40 * 0x40 + c % 0x40;
  }

  lemma DecodesFour(c: Scalar, bytes: seq<byte>)
    requires 0x1_0000 <= c && |bytes| >= 4 && bytes[..4] == Encode(c)
    ensures DecodeFirst(bytes) == (c, 4)
  {
    assert bytes[0] == bytes[..4][0] && bytes[1] == bytes[..4][1];
    assert bytes[2] == bytes[..4][2] && bytes[3] == bytes[..4][3];
    Digits(c);
  }

  lemma Digits(c: nat)
    ensures c == c / 0x4_0000 * 0x4_0000 + c / 0x1000 % 0x40 * 0x1000 + c / 0x40 % 0x40 * 0x40 + c % 0x40
  {
    var a := c / 0x40;
    var b := a / 0x40;
    assert b == c / 0x1000 && b / 0x40 == c / 0x4_0000;
    assert c == a * 0x40 + c % 0x40;
    assert a == b * 0x40 + a % 0x40;
    assert b == b / 0x40 * 0x40 + b % 0x40;
  }

  /** The source measures texts by the length of their UTF-8 form. */
  lemma {:induction false} ByteLengthIsUtf8(s: Units)
    ensures ByteLength(s) == |EncodeAll(Scalars(s))|
  {
    if s != [] {
      var n := if |s| >= 2 && 0xD800 <= s[0] <= 0xDBFF && 0xDC00 <= s[1] <= 0xDFFF then 2 else 1;
      ByteLengthIsUtf8(s[n..]);
      assert Scalars(s)[1..] == Scalars(s[n..]);
    }
  }

  // ---------------------------------------------------------------- the values within a value

  /** A value within another, and how many levels it lies below it. */
  datatype Part = Part(item: Json, level: nat)

  function Parts(v: Json, level: nat): seq<Part>
    decreases v, 0
  {
    [Part(v, level)] + match v
      case Array(items) => ItemParts(items, level + 1)
      case Object(entries) => EntryParts(entries, level + 1)
      case _ => []
  }

  function ItemParts(items: seq<Json>, level: nat): seq<Part>
    decreases items, 1
  {
    if items == [] then [] else Parts(items[0], level) + ItemParts(items[1..], level)
  }

  function EntryParts(entries: seq<Entry>, level: nat): seq<Part>
    decreases entries, 1
  {
    if entries == [] then [] else Parts(entries[0].item, level) + EntryParts(entries[1..], level)
  }

  /** What one value may be, whatever is in it: no more than 256 items, keys of no more than 256 units, safe numbers. */
  predicate IsSound(v: Json) {
    match v
    case Null => true
    case Boolean(_) => true
    case Finite(number) => -9_007_199_254_740_991.0 <= number <= 9_007_199_254_740_991.0
    case NotFinite => false
    case Text(_) => true
    case Array(items) => |items| <= 256
    case Object(entries) => |entries| <= 256 && forall i | 0 <= i < |entries| :: |entries[i].key| <= 256
    case Other => false
  }

  /** The bytes of a value's own text, or of its own keys. */
  function OwnBytes(v: Json): nat {
    match v
    case Text(units) => |EncodeAll(Scalars(units))|
    case Object(entries) => KeyBytes(entries)
    case _ => 0
  }

  function KeyBytes(entries: seq<Entry>): nat {
    if entries == [] then 0 else |EncodeAll(Scalars(entries[0].key))| + KeyBytes(entries[1..])
  }

  function SumBytes(parts: seq<Part>): nat {
    if parts == [] then 0 else OwnBytes(parts[0].item) + SumBytes(parts[1..])
  }

  predicate AllSound(parts: seq<Part>) {
    forall i | 0 <= i < |parts| :: IsSound(parts[i].item)
  }

  predicate NoneBelow(parts: seq<Part>, level: int) {
    forall i | 0 <= i < |parts| :: parts[i].level <= level
  }

  lemma {:induction false} SumAppend(a: seq<Part>, b: seq<Part>)
    ensures SumBytes(a + b) == SumBytes(a) + SumBytes(b)
  {
    if a == [] {
      assert a + b == b;
    } else {
      SumAppend(a[1..], b);
      assert (a + b)[1..] == a[1..] + b;
    }
  }

  lemma SoundAppend(a: seq<Part>, b: seq<Part>, level: int)
    ensures AllSound(a + b) <==> AllSound(a) && AllSound(b)
    ensures NoneBelow(a + b, level) <==> NoneBelow(a, level) && NoneBelow(b, level)
  {
    assert forall i | 0 <= i < |a| :: (a + b)[i] == a[i];
    assert forall i | 0 <= i < |b| :: (a + b)[|a| + i] == b[i];
  }

  /** The totals of a value are those of its parts. */
  ghost predicate AreTotals(parts: seq<Part>, nodes: nat, bytes: nat, sound: bool) {
    |parts| == nodes && SumBytes(parts) == bytes && (AllSound(parts) <==> sound)
  }

  ghost predicate AreExact(v: Json, level: nat, limit: int) {
    && AreTotals(Parts(v, level), Nodes(v), TextBytes(v), Shapely(v))
    && (NoneBelow(Parts(v, level), limit) <==> level + Height(v) <= limit)
  }

  predicate AllShapely(items: seq<Json>) {
    forall i | 0 <= i < |items| :: Shapely(items[i])
  }

  predicate EntriesShapely(entries: seq<Entry>) {
    forall i | 0 <= i < |entries| :: Shapely(entries[i].item)
  }

  ghost predicate AreItemsExact(items: seq<Json>, level: nat, limit: int) {
    && AreTotals(ItemParts(items, level), ItemNodes(items), ItemBytes(items), AllShapely(items))
    && (NoneBelow(ItemParts(items, level), limit) <==> items == [] || level - 1 + ItemHeight(items) <= limit)
  }

  /** The keys of an object count for the object, not for its parts. */
  ghost predicate AreEntriesExact(entries: seq<Entry>, level: nat, limit: int) {
    && |EntryParts(entries, level)| == EntryNodes(entries)
    && KeyBytes(entries) + SumBytes(EntryParts(entries, level)) == EntryBytes(entries)
    && (AllSound(EntryParts(entries, level)) <==> EntriesShapely(entries))
    && (NoneBelow(EntryParts(entries, level), limit) <==> entries == [] || level - 1 + EntryHeight(entries) <= limit)
  }

  /** A value and its parts. */
  lemma WithParts(v: Json, level: nat, tail: seq<Part>, limit: int)
    ensures var all := [Part(v, level)] + tail;
      && |all| == 1 + |tail| && SumBytes(all) == OwnBytes(v) + SumBytes(tail)
      && (AllSound(all) <==> IsSound(v) && AllSound(tail))
      && (NoneBelow(all, limit) <==> level <= limit && NoneBelow(tail, limit))
  {
    var head := [Part(v, level)];
    assert head[1..] == [] && head[0] == Part(v, level);
    SumAppend(head, tail);
    SoundAppend(head, tail, limit);
  }

  lemma {:induction false} PartsExact(v: Json, level: nat, limit: int)
    ensures AreExact(v, level, limit)
    decreases v, 0
  {
    if v.Array? {
      ArrayParts(v, level, limit);
    } else if v.Object? {
      ObjectParts(v, level, limit);
    } else {
      LeafExact(v, level, limit);
    }
  }

  lemma {:induction false} ArrayParts(v: Json, level: nat, limit: int)
    requires v.Array?
    ensures AreExact(v, level, limit)
    decreases v.items, 2
  {
    ItemsExact(v.items, level + 1, limit);
    ArrayExact(v, level, limit);
  }

  lemma {:induction false} ObjectParts(v: Json, level: nat, limit: int)
    requires v.Object?
    ensures AreExact(v, level, limit)
    decreases v.entries, 2
  {
    EntriesExact(v.entries, level + 1, limit);
    ObjectExact(v, level, limit);
  }

  lemma LeafExact(v: Json, level: nat, limit: int)
    requires !v.Array? && !v.Object?
    ensures AreExact(v, level, limit)
  {
    if v.Text? {
      ByteLengthIsUtf8(v.units);
    }
    WithParts(v, level, [], limit);
  }

  lemma ArrayExact(v: Json, level: nat, limit: int)
    requires v.Array?
    requires AreItemsExact(v.items, level + 1, limit)
    ensures AreExact(v, level, limit)
  {
    WithParts(v, level, ItemParts(v.items, level + 1), limit);
  }

  lemma ObjectExact(v: Json, level: nat, limit: int)
    requires v.Object? && AreEntriesExact(v.entries, level + 1, limit)
    ensures AreExact(v, level, limit)
  {
    WithParts(v, level, EntryParts(v.entries, level + 1), limit);
  }

  lemma ShapelyItems(items: seq<Json>)
    requires items != []
    ensures AllShapely(items) <==> Shapely(items[0]) && AllShapely(items[1..])
  {
    assert forall i | 0 < i < |items| :: items[i] == items[1..][i - 1];
  }

  lemma ItemsJoin(items: seq<Json>, level: nat, limit: int)
    requires level >= 1 && items != [] && AreExact(items[0], level, limit) && AreItemsExact(items[1..], level, limit)
    ensures AreItemsExact(items, level, limit)
  {
    var first, rest := Parts(items[0], level), ItemParts(items[1..], level);
    SumAppend(first, rest);
    SoundAppend(first, rest, limit);
    ShapelyItems(items);
  }

  lemma {:induction false} ItemsExact(items: seq<Json>, level: nat, limit: int)
    requires level >= 1
    ensures AreItemsExact(items, level, limit)
    decreases items, 1
  {
    if items != [] {
      PartsExact(items[0], level, limit);
      ItemsExact(items[1..], level, limit);
      ItemsJoin(items, level, limit);
    }
  }

  lemma {:induction false} EntriesExact(entries: seq<Entry>, level: nat, limit: int)
    requires level >= 1
    ensures AreEntriesExact(entries, level, limit)
    decreases entries, 1
  {
    if entries != [] {
      PartsExact(entries[0].item, level, limit);
      EntriesExact(entries[1..], level, limit);
      EntriesJoin(entries, level, limit);
    }
  }

  lemma EntriesJoin(entries: seq<Entry>, level: nat, limit: int)
    requires level >= 1 && entries != []
    requires AreExact(entries[0].item, level, limit) && AreEntriesExact(entries[1..], level, limit)
    ensures AreEntriesExact(entries, level, limit)
  {
    var first, rest := Parts(entries[0].item, level), EntryParts(entries[1..], level);
    ByteLengthIsUtf8(entries[0].key);
    SumAppend(first, rest);
    SoundAppend(first, rest, limit);
    assert forall i | 0 < i < |entries| :: entries[i] == entries[1..][i - 1];
  }

  /**
   * The traversal accepts a value exactly when it holds at most 4096 values, itself included, none more than twelve
   * levels down and each of them sound, and its texts and keys are at most 8 MiB of UTF-8 together.
   */
  lemma AcceptsIff(v: Json)
    ensures Visit(v, 0, Counters(0, 0)).0 <==>
      && |Parts(v, 0)| <= 4096
      && (forall i | 0 <= i < |Parts(v, 0)| :: Parts(v, 0)[i].level <= 12 && IsSound(Parts(v, 0)[i].item))
      && SumBytes(Parts(v, 0)) <= 8 * 1024 * 1024
  {
    AcceptsExactlyBounded(v);
    PartsExact(v, 0, 12);
  }
}
