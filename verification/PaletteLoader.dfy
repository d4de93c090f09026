/**
 * The loader of the command palette's index (apps/api/dashboard/dashboard.js, `createPaletteIndexLoader`).
 *
 * `now` is what the clock shows at a step. The index is the rows of every source that has any; how
 * entries are built from them is not part of this model.
 */
module PaletteLoader {
  import opened Wrappers

  const PALETTE_BATCH_SIZE := 3

  type Key = nat

  /** What a source answered. */
  datatype Rows = Rows(ids: seq<string>)

  // ---------------------------------------------------------------- batches

  function Flatten<T>(batches: seq<seq<T>>): seq<T> {
    if batches == [] then [] else Flatten(batches[..|batches| - 1]) + batches[|batches| - 1]
  }

  lemma FlattenAppend<T>(batches: seq<seq<T>>, batch: seq<T>)
    ensures Flatten(batches + [batch]) == Flatten(batches) + batch
  {
    assert (batches + [batch])[..|batches|] == batches;
  }

  lemma {:induction false} FlattenCons<T>(batch: seq<T>, batches: seq<seq<T>>)
    ensures Flatten([batch] + batches) == batch + Flatten(batches)
  {
    if batches == [] {
      FlattenAppend<T>([], batch);
      assert [batch] + batches == [] + [batch];
    } else {
      var front, last := batches[..|batches| - 1], batches[|batches| - 1];
      FlattenCons(batch, front);
      FlattenAppend([batch] + front, last);
      assert [batch] + batches == ([batch] + front) + [last];
    }
  }

  /** Batches of `list`, in order: all full except perhaps the last, which is not empty. */
  ghost predicate AreBatches<T>(batches: seq<seq<T>>, list: seq<T>) {
    && Flatten(batches) == list
    && forall i | 0 <= i < |batches| ::
      1 <= |batches[i]| <= PALETTE_BATCH_SIZE && (i < |batches| - 1 ==> |batches[i]| == PALETTE_BATCH_SIZE)
  }

  function Chunks<T>(list: seq<T>): seq<seq<T>> {
    if list == [] then []
    else if |list| <= PALETTE_BATCH_SIZE then [list]
    else [list[..PALETTE_BATCH_SIZE]] + Chunks(list[PALETTE_BATCH_SIZE..])
  }

  lemma {:induction false} ChunksAreBatches<T>(list: seq<T>)
    ensures AreBatches(Chunks(list), list)
    ensures list != [] ==> Chunks(list) != []
  {
    if list == [] {
    } else if |list| <= PALETTE_BATCH_SIZE {
      FlattenAppend([], list);
      assert [] + [list] == [list];
    } else {
      var head, rest := list[..PALETTE_BATCH_SIZE], list[PALETTE_BATCH_SIZE..];
      ChunksAreBatches(rest);
      FlattenCons(head, Chunks(rest));
    }
  }

  method ChunkPaletteRequests<T>(list: seq<T>) returns (batches: seq<seq<T>>)
    ensures batches == Chunks(list) && AreBatches(batches, list)
  {
    batches := [];
    var index := 0;
    while index < |list|
      invariant 0 <= index
      invariant batches + Chunks(From(list, index)) == Chunks(list)
      decreases |list| - index
    {
      var end := if index + PALETTE_BATCH_SIZE <= |list| then index + PALETTE_BATCH_SIZE else |list|;
      ChunkStep(batches, list, index, end);
      batches := batches + [list[index..end]];
      index := index + PALETTE_BATCH_SIZE;
    }
    assert batches + [] == batches;
    ChunksAreBatches(list);
  }

  function From<T>(list: seq<T>, index: nat): seq<T> {
    if index <= |list| then list[index..] else []
  }

  lemma ChunkStep<T>(batches: seq<seq<T>>, list: seq<T>, index: nat, end: nat)
    requires index < |list|
      && end == if index + PALETTE_BATCH_SIZE <= |list| then index + PALETTE_BATCH_SIZE else |list|
    ensures batches + Chunks(From(list, index))
      == batches + [list[index..end]] + Chunks(From(list, index + PALETTE_BATCH_SIZE))
  {
    var rest := list[index..];
    NextChunk(rest);
    assert rest[..end - index] == list[index..end];
    assert rest[end - index..] == From(list, index + PALETTE_BATCH_SIZE);
    assert batches + ([list[index..end]] + Chunks(rest[end - index..]))
      == batches + [list[index..end]] + Chunks(rest[end - index..]);
  }

  lemma NextChunk<T>(list: seq<T>)
    requires list != []
    ensures var n := if |list| < PALETTE_BATCH_SIZE then |list| else PALETTE_BATCH_SIZE;
      Chunks(list) == [list[..n]] + Chunks(list[n..])
  {
    if |list| <= PALETTE_BATCH_SIZE {
      assert list[..|list|] == list;
      assert list[|list|..] == [];
      assert [list] + [] == [list];
    }
  }

  // ---------------------------------------------------------------- the loader

  /**
   * One settled request: the rows it brought, or none when it failed. `pass` is the pass that sent it, `epoch` the
   * number of invalidations, and `begunAt` the time, when it was sent.
   */
  datatype Fetch = Fetch(key: Key, pass: nat, epoch: nat, begunAt: int, rows: Option<Rows>)

  /**
   * Where the single load is: nowhere, waiting for a batch of the pass `pass` with `settled` done and
   * `rest` still to send, or returned with `ensure` about to forget it.
   */
  datatype Phase =
    | Idle
    | Awaiting(pass: nat, wanted: seq<Key>, settled: seq<Fetch>, batch: seq<Key>, epoch: nat, begunAt: int,
      rest: seq<seq<Key>>)
    | Returned

  datatype Loader = Loader(
    sources: map<Key, Fetch>,
    pending: set<Key>,
    index: Option<map<Key, Fetch>>,
    builtAt: int,
    stale: bool,
    generation: nat,
    invalidations: nat,
    phase: Phase)

  datatype Config = Config(requests: seq<Key>, maxAgeMs: int)

  function Keys(requests: seq<Key>): set<Key> {
    set k | k in requests
  }

  function NewLoader(c: Config): Loader {
    Loader(map[], Keys(c.requests), None, 0, true, 0, 0, Idle)
  }

  predicate Fresh(l: Loader, c: Config, now: int) {
    l.index.Some? && !l.stale && now - l.builtAt <= c.maxAgeMs
  }

  /** The requests a pass sends: those whose key is pending. */
  function Wanted(requests: seq<Key>, pending: set<Key>): seq<Key> {
    if requests == [] then []
    else
      var earlier, last := Wanted(requests[..|requests| - 1], pending), requests[|requests| - 1];
      if last in pending then earlier + [last] else earlier
  }

  predicate Fetched(settled: seq<Fetch>, i: nat) {
    i < |settled| && settled[i].rows.Some?
  }

  /** The sources after the first `n` outcomes of a pass, each key with the outcome at its position. */
  function Committed(wanted: seq<Key>, settled: seq<Fetch>, sources: map<Key, Fetch>, n: nat): map<Key, Fetch>
    requires n <= |wanted|
  {
    if n == 0 then sources
    else
      var before := Committed(wanted, settled, sources, n - 1);
      if Fetched(settled, n - 1) then before[wanted[n - 1] := settled[n - 1]] else before
  }

  function Failed(wanted: seq<Key>, settled: seq<Fetch>, n: nat): set<Key>
    requires n <= |wanted|
  {
    if n == 0 then {}
    else Failed(wanted, settled, n - 1) + (if Fetched(settled, n - 1) then {} else {wanted[n - 1]})
  }

  function Commit(l: Loader, wanted: seq<Key>, settled: seq<Fetch>, now: int): Loader {
    var sources, failed := Committed(wanted, settled, l.sources, |wanted|), Failed(wanted, settled, |wanted|);
    l.(sources := sources, pending := failed, index := Some(sources), builtAt := now, stale := failed != {},
      phase := Returned)
  }

  /** The pending keys a pass begins with: all of them when there are none. */
  function Armed(l: Loader, c: Config): set<Key> {
    if l.pending == {} then Keys(c.requests) else l.pending
  }

  /** The top of the loop in `load`, up to its next wait. */
  function Pass(l: Loader, c: Config, now: int): Loader {
    if Fresh(l, c, now) then l.(phase := Returned)
    else
      var armed := l.(pending := Armed(l, c), generation := l.generation + 1);
      var wanted := Wanted(c.requests, armed.pending);
      var batches := Chunks(wanted);
      if batches == [] then Commit(armed, [], [], now)
      else armed.(phase := Awaiting(armed.generation, wanted, [], batches[0], l.invalidations, now, batches[1..]))
  }

  function Ensure(l: Loader, c: Config, now: int): Loader {
    if l.phase.Idle? then Pass(l, c, now) else l
  }

  function Invalidate(l: Loader, c: Config): Loader {
    l.(stale := true, pending := Keys(c.requests), generation := l.generation + 1, invalidations := l.invalidations + 1)
  }

  /** The batch in flight, settled with these outcomes. */
  function Stamped(batch: seq<Key>, pass: nat, epoch: nat, begunAt: int, outcomes: seq<Option<Rows>>): seq<Fetch>
    requires |outcomes| == |batch|
  {
    seq(|batch|, i requires 0 <= i < |batch| => Fetch(batch[i], pass, epoch, begunAt, outcomes[i]))
  }

  function BatchSettled(l: Loader, c: Config, outcomes: seq<Option<Rows>>, now: int): Loader
    requires l.phase.Awaiting? && |outcomes| == |l.phase.batch|
  {
    var p := l.phase;
    var settled := p.settled + Stamped(p.batch, p.pass, p.epoch, p.begunAt, outcomes);
    if p.rest != [] then l.(phase := Awaiting(p.pass, p.wanted, settled, p.rest[0], l.invalidations, now, p.rest[1..]))
    else if p.pass != l.generation then Pass(l, c, now)
    else Commit(l, p.wanted, settled, now)
  }

  datatype Step = EnsureStep | InvalidateStep | SettleStep(outcomes: seq<Option<Rows>>) | ForgetStep

  predicate Enabled(l: Loader, s: Step) {
    match s
    case EnsureStep => true
    case InvalidateStep => true
    case SettleStep(outcomes) => l.phase.Awaiting? && |outcomes| == |l.phase.batch|
    case ForgetStep => l.phase.Returned?
  }

  function Apply(l: Loader, c: Config, s: Step, now: int): Loader
    requires Enabled(l, s)
  {
    match s
    case EnsureStep => Ensure(l, c, now)
    case InvalidateStep => Invalidate(l, c)
    case SettleStep(outcomes) => BatchSettled(l, c, outcomes, now)
    case ForgetStep => l.(phase := Idle)
  }

  datatype Entry = Entry(step: Step, now: int)

  predicate CanRun(l: Loader, c: Config, entries: seq<Entry>)
    decreases |entries|
  {
    entries == [] || (Enabled(l, entries[0].step)
      && CanRun(Apply(l, c, entries[0].step, entries[0].now), c, entries[1..]))
  }

  function Run(l: Loader, c: Config, entries: seq<Entry>): Loader
    requires CanRun(l, c, entries)
    decreases |entries|
  {
    if entries == [] then l else Run(Apply(l, c, entries[0].step, entries[0].now), c, entries[1..])
  }

  // ---------------------------------------------------------------- the object

  class PaletteIndexLoader {
    const c: Config
    var sources: map<Key, Fetch>
    var pending: set<Key>
    var index: Option<map<Key, Fetch>>
    var builtAt: int
    var stale: bool
    var generation: nat
    var invalidations: nat
    var phase: Phase

    ghost function State(): Loader
      reads this
    {
      Loader(sources, pending, index, builtAt, stale, generation, invalidations, phase)
    }

    constructor (c: Config)
      ensures this.c == c && State() == NewLoader(c)
    {
      this.c := c;
      sources, pending, index, builtAt, stale := map[], Keys(c.requests), None, 0, true;
      generation, invalidations, phase := 0, 0, Idle;
    }

    /** Starts a load unless one is under way. */
    method EnsureLoad(now: int)
      modifies this
      ensures State() == Ensure(old(State()), c, now)
    {
      if phase.Idle? {
        StartPass(now);
      }
    }

    method InvalidateIndex()
      modifies this
      ensures State() == Invalidate(old(State()), c)
    {
      stale := true;
      pending := Keys(c.requests);
      generation := generation + 1;
      invalidations := invalidations + 1;
    }

    method Forget()
      requires phase.Returned?
      modifies this
      ensures State() == old(State()).(phase := Idle)
    {
      phase := Idle;
    }

    method StartPass(now: int)
      modifies this
      ensures State() == Pass(old(State()), c, now)
    {
      if index.Some? && !stale && now - builtAt <= c.maxAgeMs {
        phase := Returned;
        return;
      }
      if pending == {} {
        pending := Keys(c.requests);
      }
      generation := generation + 1;
      var wanted := Wanted(c.requests, pending);
      var batches := ChunkPaletteRequests(wanted);
      if batches == [] {
        CommitPass([], [], now);
      } else {
        phase := Awaiting(generation, wanted, [], batches[0], invalidations, now, batches[1..]);
      }
    }

    method SettleBatch(outcomes: seq<Option<Rows>>, now: int)
      requires phase.Awaiting? && |outcomes| == |phase.batch|
      modifies this
      ensures State() == BatchSettled(old(State()), c, outcomes, now)
    {
      var p := phase;
      var settled := p.settled + Stamped(p.batch, p.pass, p.epoch, p.begunAt, outcomes);
      if p.rest != [] {
        phase := Awaiting(p.pass, p.wanted, settled, p.rest[0], invalidations, now, p.rest[1..]);
      } else if p.pass != generation {
        StartPass(now);
      } else {
        CommitPass(p.wanted, settled, now);
      }
    }

    method CommitPass(wanted: seq<Key>, settled: seq<Fetch>, now: int)
      modifies this
      ensures State() == Commit(old(State()), wanted, settled, now)
    {
      var nextPending: set<Key> := {};
      ghost var before := State();
      for position := 0 to |wanted|
        invariant nextPending == Failed(wanted, settled, position)
        invariant State() == before.(sources := Committed(wanted, settled, before.sources, position))
      {
        if position < |settled| && settled[position].rows.Some? {
          sources := sources[wanted[position] := settled[position]];
        } else {
          nextPending := nextPending + {wanted[position]};
        }
      }
      pending := nextPending;
      index := Some(sources);
      builtAt := now;
      stale := pending != {};
      phase := Returned;
    }
  }
}
