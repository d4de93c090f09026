/**
 * The form of tool arguments that a transcript and an execution share
 * (`canonicalToolArguments` and `sameArguments` in apps/agent-runtime/src/proxy-tools.ts).
 */
module ToolArguments {
  import opened ToolTranscript

  /** Code unit order on keys. */
  predicate Below(a: string, b: string) {
    if b == "" then false
    else if a == "" then true
    else a[0] < b[0] || (a[0] == b[0] && Below(a[1..], b[1..]))
  }

  /** Insertion into entries sorted by key, after equal keys, as a stable sort does. */
  function Insert(e: Entry, entries: seq<Entry>): seq<Entry> {
    if entries == [] || Below(e.key, entries[0].key) then [e] + entries
    else [entries[0]] + Insert(e, entries[1..])
  }

  function Sorted(entries: seq<Entry>): seq<Entry> {
    if entries == [] then [] else Insert(entries[|entries| - 1], Sorted(entries[..|entries| - 1]))
  }

  predicate Dropped(item: Json) {
    item.Null? || item.Undefined?
  }

  function CanonicalItems(items: seq<Json>): seq<Json> {
    if items == [] then []
    else [if Dropped(items[0]) then Null else Canonical(items[0])] + CanonicalItems(items[1..])
  }

  /** The entries that are not dropped, each made canonical. */
  function CanonicalEntries(entries: seq<Entry>): seq<Entry> {
    if entries == [] then []
    else
      (if Dropped(entries[0].item) then [] else [Entry(entries[0].key, Canonical(entries[0].item))])
        + CanonicalEntries(entries[1..])
  }

  function Canonical(value: Json): Json {
    match value
    case Array(items) => Array(CanonicalItems(items))
    case Object(entries) => Object(Sorted(CanonicalEntries(entries)))
    case Number(text) => Text(text)
    case Boolean(b) => Text(if b then "true" else "false")
    case _ => value
  }

  /** Equal JSON texts of the canonical forms; a canonical value is determined by its JSON text. */
  predicate SameArguments(raw: Json, executed: Json) {
    Canonical(raw) == Canonical(executed)
  }

  // ---------------------------------------------------------------- what sameness means for objects

  lemma {:induction false} BelowIrreflexive(a: string)
    ensures !Below(a, a)
  {
    if a != "" { BelowIrreflexive(a[1..]); }
  }

  lemma {:induction false} BelowTransitive(a: string, b: string, c: string)
    requires Below(a, b) && Below(b, c)
    ensures Below(a, c)
  {
    if a != "" && a[0] == b[0] == c[0] { BelowTransitive(a[1..], b[1..], c[1..]); }
  }

  lemma {:induction false} BelowTotal(a: string, b: string)
    ensures a == b || Below(a, b) || Below(b, a)
  {
    if a != "" && b != "" && a[0] == b[0] {
      BelowTotal(a[1..], b[1..]);
      assert a == [a[0]] + a[1..] && b == [b[0]] + b[1..];
    }
  }

  ghost predicate StrictlySorted(entries: seq<Entry>) {
    forall i, j | 0 <= i < j < |entries| :: Below(entries[i].key, entries[j].key)
  }

  ghost predicate DistinctKeys(entries: seq<Entry>) {
    forall i, j | 0 <= i < j < |entries| :: entries[i].key != entries[j].key
  }

  lemma {:induction false} InsertContents(e: Entry, entries: seq<Entry>)
    ensures forall x :: x in Insert(e, entries) <==> x == e || x in entries
  {
    if entries != [] && !Below(e.key, entries[0].key) {
      InsertContents(e, entries[1..]);
      assert entries == [entries[0]] + entries[1..];
    }
  }

  lemma {:induction false} InsertSorted(e: Entry, entries: seq<Entry>)
    requires StrictlySorted(entries) && forall x | x in entries :: x.key != e.key
    ensures StrictlySorted(Insert(e, entries))
  {
    if entries != [] {
      var rest := entries[1..];
      if Below(e.key, entries[0].key) {
        forall x | x in entries ensures Below(e.key, x.key) {
          if x != entries[0] { BelowTransitive(e.key, entries[0].key, x.key); }
        }
      } else {
        InsertSorted(e, rest);
        InsertContents(e, rest);
        BelowTotal(e.key, entries[0].key);
        assert forall x | x in rest :: Below(entries[0].key, x.key);
        assert forall x | x in Insert(e, rest) :: Below(entries[0].key, x.key);
      }
    }
  }

  lemma {:induction false} SortedFacts(entries: seq<Entry>)
    requires DistinctKeys(entries)
    ensures StrictlySorted(Sorted(entries))
    ensures forall x :: x in Sorted(entries) <==> x in entries
  {
    if entries != [] {
      var last, init := entries[|entries| - 1], entries[..|entries| - 1];
      SortedFacts(init);
      InsertContents(last, Sorted(init));
      InsertSorted(last, Sorted(init));
      assert entries == init + [last];
    }
  }

  /** A strictly sorted list is determined by what it holds. */
  lemma {:induction false} SortedUnique(a: seq<Entry>, b: seq<Entry>)
    requires StrictlySorted(a) && StrictlySorted(b)
    requires forall x :: x in a <==> x in b
    ensures a == b
  {
    assert a != [] ==> a[0] in a;
    assert b != [] ==> b[0] in b;
    if a != [] && b != [] {
      SameHead(a, b);
      forall x ensures x in a[1..] <==> x in b[1..] {
        TailContents(a, b, x);
        TailContents(b, a, x);
      }
      SortedUnique(a[1..], b[1..]);
      assert a == [a[0]] + a[1..] && b == [b[0]] + b[1..];
    }
  }

  lemma TailContents(a: seq<Entry>, b: seq<Entry>, x: Entry)
    requires StrictlySorted(a) && a != [] && b != [] && a[0] == b[0]
    requires forall y :: y in a <==> y in b
    ensures x in a[1..] ==> x in b[1..]
  {
    if x in a[1..] {
      assert Below(a[0].key, x.key);
      BelowIrreflexive(a[0].key);
      assert x in b;
      assert b == [b[0]] + b[1..];
    }
  }

  lemma SameHead(a: seq<Entry>, b: seq<Entry>)
    requires StrictlySorted(a) && StrictlySorted(b) && a != [] && b != []
    requires forall x :: x in a <==> x in b
    ensures a[0] == b[0]
  {
    if a[0] != b[0] {
      assert a[0] in b && b[0] in a;
      assert Below(b[0].key, a[0].key) && Below(a[0].key, b[0].key);
      BelowTransitive(a[0].key, b[0].key, a[0].key);
      BelowIrreflexive(a[0].key);
    }
  }

  lemma {:induction false} CanonicalContents(entries: seq<Entry>, x: Entry)
    ensures x in CanonicalEntries(entries)
      <==> exists e :: e in entries && !Dropped(e.item) && x == Entry(e.key, Canonical(e.item))
  {
    if entries != [] {
      CanonicalContents(entries[1..], x);
      assert entries == [entries[0]] + entries[1..];
    }
  }

  lemma {:induction false} CanonicalDistinct(entries: seq<Entry>)
    requires DistinctKeys(entries)
    ensures DistinctKeys(CanonicalEntries(entries))
  {
    if entries != [] {
      CanonicalDistinct(entries[1..]);
      forall x | x in CanonicalEntries(entries[1..]) ensures x.key != entries[0].key {
        CanonicalContents(entries[1..], x);
      }
    }
  }

  /** Every entry of `a` that is not null has a counterpart in `b`. */
  ghost predicate Covers(a: seq<Entry>, b: seq<Entry>) {
    forall e | e in a && !Dropped(e.item) ::
      exists f :: f in b && !Dropped(f.item) && f.key == e.key && SameArguments(e.item, f.item)
  }

  /**
   * Two objects are the same arguments exactly when, nulls aside, they hold the same arguments under the same
   * keys in any order.
   */
  lemma ObjectsSameIff(a: seq<Entry>, b: seq<Entry>)
    requires DistinctKeys(a) && DistinctKeys(b)
    ensures SameArguments(Object(a), Object(b)) <==> Covers(a, b) && Covers(b, a)
  {
    var ca, cb := CanonicalEntries(a), CanonicalEntries(b);
    CanonicalDistinct(a);
    CanonicalDistinct(b);
    SortedFacts(ca);
    SortedFacts(cb);
    if Covers(a, b) && Covers(b, a) {
      forall x ensures x in ca <==> x in cb {
        CoversContents(a, b, x);
        CoversContents(b, a, x);
      }
      SortedUnique(Sorted(ca), Sorted(cb));
    }
    if SameArguments(Object(a), Object(b)) {
      forall x ensures x in ca <==> x in cb {
        assert x in Sorted(ca) <==> x in Sorted(cb);
      }
      ContentsCover(a, b);
      ContentsCover(b, a);
    }
  }

  lemma CoversContents(a: seq<Entry>, b: seq<Entry>, x: Entry)
    requires Covers(a, b)
    ensures x in CanonicalEntries(a) ==> x in CanonicalEntries(b)
  {
    CanonicalContents(a, x);
    CanonicalContents(b, x);
  }

  lemma ContentsCover(a: seq<Entry>, b: seq<Entry>)
    requires forall x | x in CanonicalEntries(a) :: x in CanonicalEntries(b)
    ensures Covers(a, b)
  {
    forall e | e in a && !Dropped(e.item)
      ensures exists f :: f in b && !Dropped(f.item) && f.key == e.key && SameArguments(e.item, f.item)
    {
      CanonicalContents(a, Entry(e.key, Canonical(e.item)));
      CanonicalContents(b, Entry(e.key, Canonical(e.item)));
    }
  }

  // ---------------------------------------------------------------- what it means for other values

  /** Texts, numbers and truth values: what they spell. */
  predicate IsLeaf(v: Json) {
    v.Text? || v.Number? || v.Boolean?
  }

  function Spelled(v: Json): string
    requires IsLeaf(v)
  {
    match v
    case Text(chars) => chars
    case Number(text) => text
    case Boolean(value) => if value then "true" else "false"
  }

  /** Items of arrays: null and undefined are the same there. */
  predicate SameItem(x: Json, y: Json) {
    if x.Null? || x.Undefined? then y.Null? || y.Undefined?
    else !y.Null? && !y.Undefined? && SameArguments(x, y)
  }

  lemma {:induction false} ItemsSameIff(a: seq<Json>, b: seq<Json>)
    ensures CanonicalItems(a) == CanonicalItems(b) <==>
      |a| == |b| && forall i | 0 <= i < |a| :: SameItem(a[i], b[i])
    decreases |a|
  {
    if a != [] && b != [] {
      ItemsSameIff(a[1..], b[1..]);
      assert CanonicalItems(a)[1..] == CanonicalItems(a[1..]) && CanonicalItems(b)[1..] == CanonicalItems(b[1..]);
      assert forall i | 0 < i < |a| :: a[i] == a[1..][i - 1];
      assert forall i | 0 < i < |b| :: b[i] == b[1..][i - 1];
    }
  }

  /**
   * Leaves are the same arguments exactly when they spell the same text, arrays when they are as long and have the
   * same items, and values of different forms never are.
   */
  lemma FormsSameIff(a: Json, b: Json)
    ensures IsLeaf(a) && IsLeaf(b) ==> (SameArguments(a, b) <==> Spelled(a) == Spelled(b))
    ensures a.Array? && b.Array? ==> (SameArguments(a, b) <==>
      |a.items| == |b.items| && forall i | 0 <= i < |a.items| :: SameItem(a.items[i], b.items[i]))
    ensures (a.Null? && b.Null?) || (a.Undefined? && b.Undefined?) ==> SameArguments(a, b)
    ensures SameArguments(a, b) ==> (IsLeaf(a) <==> IsLeaf(b)) && (a.Null? <==> b.Null?)
    ensures SameArguments(a, b) ==> (a.Array? <==> b.Array?) && (a.Object? <==> b.Object?)
  {
    if a.Array? && b.Array? {
      ItemsSameIff(a.items, b.items);
    }
  }
}
