/** The shape check of JSON values on the agent's wire (apps/agent-runtime/src/protocol-schemas.ts, `isBoundedJson`). */
module BoundedJson {
  const MAX_NODES := 4_096
  const MAX_DEPTH := 12
  const MAX_WIDTH := 256
  const MAX_KEY_LENGTH := 256
  const MAX_PROTOCOL_RECORD_BYTES := 8 * 1024 * 1024
  const MAX_SAFE_INTEGER := 9_007_199_254_740_991

  /** A JavaScript string: UTF-16 code units. */
  type Unit = u: int | 0 <= u < 0x1_0000

  type Units = seq<Unit>

  predicate IsHigh(u: Unit) {
    0xD800 <= u < 0xDC00
  }

  predicate IsLow(u: Unit) {
    0xDC00 <= u < 0xE000
  }

  /** The length of its UTF-8 form, in which an unpaired surrogate takes three bytes. */
  function ByteLength(s: Units): nat {
    if s == [] then 0
    else if |s| >= 2 && IsHigh(s[0]) && IsLow(s[1]) then 4 + ByteLength(s[2..])
    else (if s[0] < 0x80 then 1 else if s[0] < 0x800 then 2 else 3) + ByteLength(s[1..])
  }

  /** What a parsed value can be; `Other` is any value that JSON does not have. */
  datatype Json =
    | Null
    | Boolean(flag: bool)
    | Finite(number: real)
    | NotFinite
    | Text(units: Units)
    | Array(items: seq<Json>)
    | Object(entries: seq<Entry>)
    | Other

  datatype Entry = Entry(key: Units, item: Json)

  // ---------------------------------------------------------------- the bounds

  function Max(a: nat, b: nat): nat {
    if a > b then a else b
  }

  function Nodes(v: Json): (n: nat)
    ensures n >= 1
    decreases v, 0
  {
    match v
    case Array(items) => 1 + ItemNodes(items)
    case Object(entries) => 1 + EntryNodes(entries)
    case _ => 1
  }

  function ItemNodes(items: seq<Json>): nat
    decreases items, 1
  {
    if items == [] then 0 else Nodes(items[0]) + ItemNodes(items[1..])
  }

  function EntryNodes(entries: seq<Entry>): nat
    decreases entries, 1
  {
    if entries == [] then 0 else Nodes(entries[0].item) + EntryNodes(entries[1..])
  }

  /** How many levels lie below the value. */
  function Height(v: Json): nat
    decreases v, 0
  {
    match v
    case Array(items) => ItemHeight(items)
    case Object(entries) => EntryHeight(entries)
    case _ => 0
  }

  function ItemHeight(items: seq<Json>): nat
    decreases items, 1
  {
    if items == [] then 0 else Max(1 + Height(items[0]), ItemHeight(items[1..]))
  }

  function EntryHeight(entries: seq<Entry>): nat
    decreases entries, 1
  {
    if entries == [] then 0 else Max(1 + Height(entries[0].item), EntryHeight(entries[1..]))
  }

  /** The UTF-8 bytes of all strings and keys. */
  function TextBytes(v: Json): nat
    decreases v, 0
  {
    match v
    case Text(units) => ByteLength(units)
    case Array(items) => ItemBytes(items)
    case Object(entries) => EntryBytes(entries)
    case _ => 0
  }

  function ItemBytes(items: seq<Json>): nat
    decreases items, 1
  {
    if items == [] then 0 else TextBytes(items[0]) + ItemBytes(items[1..])
  }

  function EntryBytes(entries: seq<Entry>): nat
    decreases entries, 1
  {
    if entries == [] then 0 else ByteLength(entries[0].key) + TextBytes(entries[0].item) + EntryBytes(entries[1..])
  }

  /** Every value within is JSON, with safe numbers, bounded widths and bounded keys. */
  predicate Shapely(v: Json)
    decreases v
  {
    match v
    case Finite(number) => -(MAX_SAFE_INTEGER as real) <= number <= MAX_SAFE_INTEGER as real
    case NotFinite => false
    case Other => false
    case Array(items) => |items| <= MAX_WIDTH && forall i | 0 <= i < |items| :: Shapely(items[i])
    case Object(entries) =>
      |entries| <= MAX_WIDTH && forall i | 0 <= i < |entries| ::
        |entries[i].key| <= MAX_KEY_LENGTH && Shapely(entries[i].item)
    case _ => true
  }

  /** The bounds as a reader would state them: on totals, whatever the order of a traversal. */
  predicate Bounded(v: Json) {
    && Shapely(v)
    && Nodes(v) <= MAX_NODES
    && Height(v) <= MAX_DEPTH
    && TextBytes(v) <= MAX_PROTOCOL_RECORD_BYTES
  }

  // ---------------------------------------------------------------- the traversal

  datatype Counters = Counters(nodes: nat, bytes: nat)

  function Visit(v: Json, depth: nat, c: Counters): (bool, Counters)
    decreases v, 0
  {
    var counted := c.(nodes := c.nodes + 1);
    if counted.nodes > MAX_NODES || depth > MAX_DEPTH then (false, counted)
    else match v
      case Null => (true, counted)
      case Boolean(_) => (true, counted)
      case Finite(number) => (-(MAX_SAFE_INTEGER as real) <= number <= MAX_SAFE_INTEGER as real, counted)
      case NotFinite => (false, counted)
      case Text(units) =>
        var read := counted.(bytes := counted.bytes + ByteLength(units));
        (read.bytes <= MAX_PROTOCOL_RECORD_BYTES, read)
      case Array(items) => if |items| <= MAX_WIDTH then VisitItems(items, depth + 1, counted) else (false, counted)
      case Object(entries) =>
        if |entries| <= MAX_WIDTH then VisitEntries(entries, depth + 1, counted) else (false, counted)
      case Other => (false, counted)
  }

  function VisitItems(items: seq<Json>, depth: nat, c: Counters): (bool, Counters)
    decreases items, 1
  {
    if items == [] then (true, c)
    else
      var (ok, next) := Visit(items[0], depth, c);
      if ok then VisitItems(items[1..], depth, next) else (false, next)
  }

  function VisitEntry(e: Entry, depth: nat, c: Counters): (bool, Counters)
    decreases e, 1
  {
    var read := c.(bytes := c.bytes + ByteLength(e.key));
    if read.bytes <= MAX_PROTOCOL_RECORD_BYTES && |e.key| <= MAX_KEY_LENGTH then Visit(e.item, depth, read)
    else (false, read)
  }

  function VisitEntries(entries: seq<Entry>, depth: nat, c: Counters): (bool, Counters)
    decreases entries, 1
  {
    if entries == [] then (true, c)
    else
      var (ok, next) := VisitEntry(entries[0], depth, c);
      if ok then VisitEntries(entries[1..], depth, next) else (false, next)
  }

  // ---------------------------------------------------------------- they agree

  /** A part of the traversal accepts exactly what leaves the totals within bounds, and adds that part's totals. */
  predicate Exact(r: (bool, Counters), c: Counters, shapely: bool, deep: bool, nodes: nat, bytes: nat) {
    && (r.0 <==> shapely && deep && c.nodes + nodes <= MAX_NODES && c.bytes + bytes <= MAX_PROTOCOL_RECORD_BYTES)
    && (r.0 ==> r.1 == Counters(c.nodes + nodes, c.bytes + bytes))
  }

  predicate Within(c: Counters) {
    c.nodes <= MAX_NODES && c.bytes <= MAX_PROTOCOL_RECORD_BYTES
  }

  lemma {:induction false} VisitExact(v: Json, depth: nat, c: Counters)
    requires Within(c)
    ensures Exact(Visit(v, depth, c), c, Shapely(v), depth + Height(v) <= MAX_DEPTH, Nodes(v), TextBytes(v))
    decreases v, 0
  {
    var counted := c.(nodes := c.nodes + 1);
    if counted.nodes <= MAX_NODES && depth <= MAX_DEPTH {
      match v
      case Array(items) =>
        if |items| <= MAX_WIDTH {
          ItemsExact(items, depth + 1, counted);
        }
      case Object(entries) =>
        if |entries| <= MAX_WIDTH {
          EntriesExact(entries, depth + 1, counted);
        }
      case _ =>
    }
  }

  lemma {:induction false} ItemsExact(items: seq<Json>, depth: nat, c: Counters)
    requires Within(c) && 1 <= depth <= MAX_DEPTH + 1
    ensures Exact(VisitItems(items, depth, c), c, forall i | 0 <= i < |items| :: Shapely(items[i]),
      depth - 1 + ItemHeight(items) <= MAX_DEPTH, ItemNodes(items), ItemBytes(items))
    decreases items, 1
  {
    if items != [] {
      VisitExact(items[0], depth, c);
      var (ok, next) := Visit(items[0], depth, c);
      if ok {
        ItemsExact(items[1..], depth, next);
        assert forall i | 0 < i < |items| :: items[i] == items[1..][i - 1];
      }
    }
  }

  predicate ShapelyEntry(e: Entry) {
    |e.key| <= MAX_KEY_LENGTH && Shapely(e.item)
  }

  lemma {:induction false} EntriesExact(entries: seq<Entry>, depth: nat, c: Counters)
    requires Within(c) && 1 <= depth <= MAX_DEPTH + 1
    ensures Exact(VisitEntries(entries, depth, c), c, forall i | 0 <= i < |entries| :: ShapelyEntry(entries[i]),
      depth - 1 + EntryHeight(entries) <= MAX_DEPTH, EntryNodes(entries), EntryBytes(entries))
    decreases entries, 1
  {
    if entries != [] {
      var e := entries[0];
      var read := c.(bytes := c.bytes + ByteLength(e.key));
      if Within(read) {
        VisitExact(e.item, depth, read);
      }
      var (ok, next) := VisitEntry(e, depth, c);
      if ok {
        EntriesExact(entries[1..], depth, next);
        assert forall i | 0 < i < |entries| :: entries[i] == entries[1..][i - 1];
      }
    }
  }

  /** The traversal, which stops at the first excess, accepts exactly the bounded values. */
  lemma AcceptsExactlyBounded(v: Json)
    ensures Visit(v, 0, Counters(0, 0)).0 <==> Bounded(v)
  {
    VisitExact(v, 0, Counters(0, 0));
  }

  // ---------------------------------------------------------------- the counters in place

  method IsBoundedJson(v: Json) returns (ok: bool)
    ensures ok <==> Bounded(v)
  {
    var check := new ShapeCheck();
    ok := check.VisitValue(v, 0);
    AcceptsExactlyBounded(v);
  }

  class ShapeCheck {
    var nodes: nat
    var bytes: nat

    ghost function State(): Counters
      reads this
    {
      Counters(nodes, bytes)
    }

    constructor ()
      ensures State() == Counters(0, 0)
    {
      nodes, bytes := 0, 0;
    }

    method VisitValue(v: Json, depth: nat) returns (ok: bool)
      modifies this
      ensures (ok, State()) == Visit(v, depth, old(State()))
      decreases v, 0
    {
      nodes := nodes + 1;
      if nodes > MAX_NODES || depth > MAX_DEPTH {
        return false;
      }
      match v
      case Null => ok := true;
      case Boolean(_) => ok := true;
      case Finite(number) => ok := -(MAX_SAFE_INTEGER as real) <= number <= MAX_SAFE_INTEGER as real;
      case NotFinite => ok := false;
      case Text(units) =>
        bytes := bytes + ByteLength(units);
        ok := bytes <= MAX_PROTOCOL_RECORD_BYTES;
      case Array(items) =>
        if |items| > MAX_WIDTH {
          return false;
        }
        ok := EveryItem(items, depth + 1);
      case Object(entries) =>
        if |entries| > MAX_WIDTH {
          return false;
        }
        ok := EveryEntry(entries, depth + 1);
      case Other => ok := false;
    }

    method EveryItem(items: seq<Json>, depth: nat) returns (ok: bool)
      modifies this
      ensures (ok, State()) == VisitItems(items, depth, old(State()))
      decreases items, 1
    {
      for i := 0 to |items|
        invariant VisitItems(items[i..], depth, State()) == VisitItems(items, depth, old(State()))
      {
        assert items[i..][0] == items[i] && items[i..][1..] == items[i + 1..];
        ok := VisitValue(items[i], depth);
        if !ok {
          return;
        }
      }
      ok := true;
    }

    method EveryEntry(entries: seq<Entry>, depth: nat) returns (ok: bool)
      modifies this
      ensures (ok, State()) == VisitEntries(entries, depth, old(State()))
      decreases entries, 1
    {
      for i := 0 to |entries|
        invariant VisitEntries(entries[i..], depth, State()) == VisitEntries(entries, depth, old(State()))
      {
        assert entries[i..][0] == entries[i] && entries[i..][1..] == entries[i + 1..];
        bytes := bytes + ByteLength(entries[i].key);
        if bytes > MAX_PROTOCOL_RECORD_BYTES || |entries[i].key| > MAX_KEY_LENGTH {
          return false;
        }
        ok := VisitValue(entries[i].item, depth);
        if !ok {
          return;
        }
      }
      ok := true;
    }
  }
}
