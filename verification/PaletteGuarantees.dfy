/** What holds of the palette's loader in every run (apps/api/dashboard/dashboard.js, `createPaletteIndexLoader`). */
module PaletteGuarantees {
  import opened Wrappers
  import opened PaletteLoader

  // ---------------------------------------------------------------- invariants

  /** `f` brought the rows of `k`, and was sent after the last invalidation. */
  predicate Current(sources: map<Key, Fetch>, k: Key, epoch: nat) {
    k in sources && sources[k].key == k && sources[k].rows.Some? && sources[k].epoch == epoch
  }

  /** Every source that is not pending is current. */
  ghost predicate SettledCurrent(l: Loader, c: Config) {
    && l.pending <= Keys(c.requests)
    && forall k | k in c.requests && k !in l.pending :: Current(l.sources, k, l.invalidations)
  }

  /** Whenever the index is not stale, every source in it is current. */
  ghost predicate IndexCurrent(l: Loader, c: Config) {
    !l.stale ==> l.index.Some? && forall k | k in c.requests :: Current(l.index.value, k, l.invalidations)
  }

  /** The outcomes so far, the batch in flight and the batches to come are the pass's requests, in order. */
  ghost predicate PassAligned(p: Phase) {
    p.Awaiting? ==>
      && |p.settled| <= |p.wanted| && p.wanted[|p.settled|..] == p.batch + Flatten(p.rest)
      && (forall i | 0 <= i < |p.settled| :: p.settled[i].key == p.wanted[i])
      && 1 <= |p.batch| <= PALETTE_BATCH_SIZE
      && forall i | 0 <= i < |p.rest| :: 1 <= |p.rest[i]| <= PALETTE_BATCH_SIZE
  }

  /** A pass that nothing superseded asked for what is pending, after the last invalidation. */
  ghost predicate PassCurrent(l: Loader, c: Config) {
    l.phase.Awaiting? ==>
      && l.phase.pass <= l.generation
      && (l.phase.pass != l.generation ==> l.stale && l.pending == Keys(c.requests))
      && (l.phase.pass == l.generation ==>
        && l.phase.wanted == Wanted(c.requests, l.pending)
        && l.phase.epoch == l.invalidations
        && forall i | 0 <= i < |l.phase.settled| :: l.phase.settled[i].epoch == l.invalidations)
  }

  ghost predicate LoaderInv(l: Loader, c: Config) {
    SettledCurrent(l, c) && IndexCurrent(l, c) && PassAligned(l.phase) && PassCurrent(l, c)
  }

  lemma {:induction false} WantedMembers(requests: seq<Key>, pending: set<Key>)
    ensures forall k :: k in Wanted(requests, pending) <==> k in requests && k in pending
  {
    if requests != [] {
      assert requests == requests[..|requests| - 1] + [requests[|requests| - 1]];
      WantedMembers(requests[..|requests| - 1], pending);
    }
  }

  lemma {:induction false} CommittedKeys(wanted: seq<Key>, settled: seq<Fetch>, sources: map<Key, Fetch>, n: nat,
          k: Key, epoch: nat)
    requires n <= |wanted| == |settled|
    requires forall i | 0 <= i < |settled| :: settled[i].key == wanted[i] && settled[i].epoch == epoch
    ensures var after, failed := Committed(wanted, settled, sources, n), Failed(wanted, settled, n);
      && (k in failed ==> k in wanted)
      && (k in wanted[..n] && k !in failed ==> Current(after, k, epoch))
      && (k !in wanted[..n] ==> (k in after <==> k in sources) && (k in sources ==> after[k] == sources[k]))
  {
    if n > 0 {
      assert wanted[..n] == wanted[..n - 1] + [wanted[n - 1]];
      CommittedKeys(wanted, settled, sources, n - 1, k, epoch);
    }
  }

  /** Committing the outcomes of an unsuperseded pass. */
  lemma CommitKeeps(l: Loader, c: Config, wanted: seq<Key>, settled: seq<Fetch>, now: int)
    requires SettledCurrent(l, c) && wanted == Wanted(c.requests, l.pending) && |settled| == |wanted|
    requires forall i | 0 <= i < |settled| :: settled[i].key == wanted[i] && settled[i].epoch == l.invalidations
    ensures LoaderInv(Commit(l, wanted, settled, now), c)
  {
    var next := Commit(l, wanted, settled, now);
    WantedMembers(c.requests, l.pending);
    assert wanted[..|wanted|] == wanted;
    forall k | k in next.pending ensures k in Keys(c.requests) {
      CommittedKeys(wanted, settled, l.sources, |wanted|, k, l.invalidations);
    }
    forall k | k in c.requests && k !in next.pending ensures Current(next.sources, k, l.invalidations) {
      CommittedKeys(wanted, settled, l.sources, |wanted|, k, l.invalidations);
      if k !in wanted {
        assert Current(l.sources, k, l.invalidations);
      }
    }
  }

  lemma ArmedKeeps(l: Loader, c: Config)
    requires SettledCurrent(l, c) && IndexCurrent(l, c)
    ensures var armed := l.(pending := Armed(l, c), generation := l.generation + 1);
      SettledCurrent(armed, c) && IndexCurrent(armed, c)
  {}

  lemma FirstBatch(wanted: seq<Key>, pass: nat, epoch: nat, now: int)
    requires wanted != []
    ensures Chunks(wanted) != []
      && PassAligned(Awaiting(pass, wanted, [], Chunks(wanted)[0], epoch, now, Chunks(wanted)[1..]))
  {
    ChunksAreBatches(wanted);
    var batches := Chunks(wanted);
    FlattenCons(batches[0], batches[1..]);
    assert batches == [batches[0]] + batches[1..];
  }

  lemma PassKeeps(l: Loader, c: Config, now: int)
    requires SettledCurrent(l, c) && IndexCurrent(l, c)
    ensures LoaderInv(Pass(l, c, now), c)
  {
    if !Fresh(l, c, now) {
      ArmedKeeps(l, c);
      var armed := l.(pending := Armed(l, c), generation := l.generation + 1);
      var wanted := Wanted(c.requests, armed.pending);
      if wanted == [] {
        CommitKeeps(armed, c, [], [], now);
      } else {
        FirstBatch(wanted, armed.generation, l.invalidations, now);
      }
    }
  }

  /** The outcomes of a batch belong to the next requests of the pass. */
  lemma StampedAligned(p: Phase, outcomes: seq<Option<Rows>>)
    requires p.Awaiting? && PassAligned(p) && |outcomes| == |p.batch|
    ensures var settled := p.settled + Stamped(p.batch, p.pass, p.epoch, p.begunAt, outcomes);
      && |settled| <= |p.wanted| && p.wanted[|settled|..] == Flatten(p.rest)
      && forall i | 0 <= i < |settled| :: settled[i].key == p.wanted[i]
  {
    var n := |p.settled|;
    assert forall i | 0 <= i < |p.batch| :: p.wanted[n..][i] == p.batch[i];
    assert p.wanted[n + |p.batch|..] == p.wanted[n..][|p.batch|..];
  }

  lemma NextBatchAligned(p: Phase, settled: seq<Fetch>, epoch: nat, now: int)
    requires p.Awaiting? && PassAligned(p) && p.rest != []
    requires |settled| <= |p.wanted| && p.wanted[|settled|..] == Flatten(p.rest)
    requires forall i | 0 <= i < |settled| :: settled[i].key == p.wanted[i]
    ensures PassAligned(Awaiting(p.pass, p.wanted, settled, p.rest[0], epoch, now, p.rest[1..]))
  {
    FlattenCons(p.rest[0], p.rest[1..]);
    assert p.rest == [p.rest[0]] + p.rest[1..];
  }

  lemma BatchSettledKeeps(l: Loader, c: Config, outcomes: seq<Option<Rows>>, now: int)
    requires LoaderInv(l, c) && l.phase.Awaiting? && |outcomes| == |l.phase.batch|
    ensures LoaderInv(BatchSettled(l, c, outcomes, now), c)
  {
    var p := l.phase;
    var settled := p.settled + Stamped(p.batch, p.pass, p.epoch, p.begunAt, outcomes);
    StampedAligned(p, outcomes);
    if p.rest != [] {
      NextBatchAligned(p, settled, l.invalidations, now);
    } else if p.pass != l.generation {
      PassKeeps(l, c, now);
    } else {
      CommitKeeps(l, c, p.wanted, settled, now);
    }
  }

  lemma ApplyKeeps(l: Loader, c: Config, s: Step, now: int)
    requires LoaderInv(l, c) && Enabled(l, s)
    ensures LoaderInv(Apply(l, c, s, now), c)
  {
    match s
    case EnsureStep => PassKeeps(l, c, now);
    case InvalidateStep =>
    case SettleStep(outcomes) => BatchSettledKeeps(l, c, outcomes, now);
    case ForgetStep =>
  }

  lemma {:induction false} RunKeeps(l: Loader, c: Config, entries: seq<Entry>)
    requires LoaderInv(l, c) && CanRun(l, c, entries)
    ensures LoaderInv(Run(l, c, entries), c)
    decreases |entries|
  {
    if entries != [] {
      ApplyKeeps(l, c, entries[0].step, entries[0].now);
      RunKeeps(Apply(l, c, entries[0].step, entries[0].now), c, entries[1..]);
    }
  }

  ghost predicate Reachable(l: Loader, c: Config) {
    exists entries | CanRun(NewLoader(c), c, entries) :: l == Run(NewLoader(c), c, entries)
  }

  lemma ReachableInv(l: Loader, c: Config)
    requires Reachable(l, c)
    ensures LoaderInv(l, c)
  {
    var entries :| CanRun(NewLoader(c), c, entries) && l == Run(NewLoader(c), c, entries);
    RunKeeps(NewLoader(c), c, entries);
  }

  // ---------------------------------------------------------------- main results

  /**
   * Whenever the index is not stale, every source in it holds its own rows, sent for after the last
   * invalidation; and never more than three requests are in flight.
   */
  lemma NotStaleIsCurrent(l: Loader, c: Config)
    requires Reachable(l, c)
    ensures !l.stale ==> l.index.Some? && forall k | k in c.requests :: Current(l.index.value, k, l.invalidations)
    ensures l.phase.Awaiting? ==> 1 <= |l.phase.batch| <= PALETTE_BATCH_SIZE
  {
    ReachableInv(l, c);
  }

  /** A load returns an index whose sources, but for those that failed, were sent for after the last invalidation. */
  lemma ReturnedIndex(l: Loader, c: Config, outcomes: seq<Option<Rows>>, now: int)
    requires Reachable(l, c) && l.phase.Awaiting? && |outcomes| == |l.phase.batch|
    requires BatchSettled(l, c, outcomes, now).phase.Returned?
    ensures var next := BatchSettled(l, c, outcomes, now);
      && next.index.Some? && (next.stale <==> next.pending != {})
      && forall k | k in c.requests && k !in next.pending :: Current(next.index.value, k, next.invalidations)
  {
    ReachableInv(l, c);
    BatchSettledKeeps(l, c, outcomes, now);
  }

  lemma {:induction false} FailedAre(wanted: seq<Key>, settled: seq<Fetch>, n: nat, k: Key)
    requires n <= |wanted| == |settled|
    ensures k in Failed(wanted, settled, n) <==> exists i :: 0 <= i < n && wanted[i] == k && settled[i].rows.None?
  {
    if n > 0 {
      FailedAre(wanted, settled, n - 1, k);
    }
  }

  /** The last batch of a pass that nothing superseded has settled. */
  predicate Commits(l: Loader, outcomes: seq<Option<Rows>>) {
    l.phase.Awaiting? && |outcomes| == |l.phase.batch| && l.phase.rest == [] && l.phase.pass == l.generation
  }

  /** What the requests of such a pass brought. */
  function Outcomes(p: Phase, outcomes: seq<Option<Rows>>): seq<Fetch>
    requires p.Awaiting? && |outcomes| == |p.batch|
  {
    p.settled + Stamped(p.batch, p.pass, p.epoch, p.begunAt, outcomes)
  }

  /** After a commit exactly the sources with a failed request are pending, and the index is stale if there is one. */
  lemma FailedStayPending(l: Loader, c: Config, outcomes: seq<Option<Rows>>, now: int, k: Key)
    requires Reachable(l, c) && Commits(l, outcomes)
    ensures var next := BatchSettled(l, c, outcomes, now); var settled := Outcomes(l.phase, outcomes);
      && |settled| == |l.phase.wanted| && (forall i | 0 <= i < |settled| :: settled[i].key == l.phase.wanted[i])
      && (k in next.pending <==> exists i :: 0 <= i < |settled| && settled[i].key == k && settled[i].rows.None?)
      && (next.stale <==> next.pending != {})
  {
    ReachableInv(l, c);
    StampedAligned(l.phase, outcomes);
    assert Flatten(l.phase.rest) == [];
    FailedAre(l.phase.wanted, Outcomes(l.phase, outcomes), |l.phase.wanted|, k);
  }

  /** The next load asks again for every source that is pending. */
  lemma PendingIsRefetched(l: Loader, c: Config, now: int)
    requires Reachable(l, c) && l.phase.Idle? && l.stale && l.pending != {}
    ensures var next := Ensure(l, c, now);
      next.phase.Awaiting? && forall k :: k in next.phase.wanted <==> k in l.pending
  {
    ReachableInv(l, c);
    WantedMembers(c.requests, l.pending);
    var k :| k in l.pending;
    assert k in Wanted(c.requests, l.pending);
    ChunksAreBatches(Wanted(c.requests, l.pending));
  }

  /** A caller is answered without a request exactly when the index is fresh, or nothing is indexed at all. */
  lemma AnsweredAtOnceIff(l: Loader, c: Config, now: int)
    requires Reachable(l, c) && l.phase.Idle?
    ensures Ensure(l, c, now).phase.Returned? <==> Fresh(l, c, now) || c.requests == []
  {
    ReachableInv(l, c);
    var pending := Armed(l, c);
    WantedMembers(c.requests, pending);
    ChunksAreBatches(Wanted(c.requests, pending));
    if c.requests != [] {
      assert c.requests[0] in Keys(c.requests);
      var k :| k in pending;
      assert k in Wanted(c.requests, pending);
    }
  }

  lemma {:induction false} WantedAll(requests: seq<Key>, pending: set<Key>)
    requires forall k | k in requests :: k in pending
    ensures Wanted(requests, pending) == requests
  {
    if requests != [] {
      assert requests == requests[..|requests| - 1] + [requests[|requests| - 1]];
      WantedAll(requests[..|requests| - 1], pending);
    }
  }

  /** A superseded pass commits nothing, and the same load starts over with every source. */
  lemma SupersededStartsOver(l: Loader, c: Config, outcomes: seq<Option<Rows>>, now: int)
    requires Reachable(l, c) && l.phase.Awaiting? && |outcomes| == |l.phase.batch| && l.phase.rest == []
    requires l.phase.pass != l.generation && c.requests != []
    ensures var next := BatchSettled(l, c, outcomes, now);
      && next.sources == l.sources && next.index == l.index && next.builtAt == l.builtAt
      && next.phase.Awaiting? && next.phase.epoch == l.invalidations && next.phase.wanted == c.requests
  {
    ReachableInv(l, c);
    WantedAll(c.requests, Armed(l, c));
    ChunksAreBatches(c.requests);
  }

  // ---------------------------------------------------------------- the age of an index

  /**
   * A pass renews the index's time after asking again for every source exactly when it began with no
   * source pending or with all of them. After a failure it asks for the failed ones only.
   */
  lemma RefreshIsCompleteIff(l: Loader, c: Config, now: int)
    requires Reachable(l, c) && !Fresh(l, c, now) && c.requests != []
    ensures Pass(l, c, now).phase.Awaiting?
    ensures (forall k | k in c.requests :: k in Pass(l, c, now).phase.wanted)
      <==> l.pending == {} || l.pending == Keys(c.requests)
  {
    ReachableInv(l, c);
    var pending := Armed(l, c);
    WantedMembers(c.requests, pending);
    assert c.requests[0] in c.requests;
    ChunksAreBatches(Wanted(c.requests, pending));
  }

  const BROUGHT := Some(Rows([]))
  const TWO_SOURCES := Config([0, 1], 60_000)
  const OLD := Fetch(0, 1, 0, 0, BROUGHT)
  const NEW := Fetch(1, 2, 0, 100_000, BROUGHT)

  /** A load in which the second of two sources failed. */
  function AfterFailure(): Loader {
    Loader(map[0 := OLD], {1}, Some(map[0 := OLD]), 0, true, 1, 0, Idle)
  }

  /** A later load, which asked for the second source only. */
  function AfterRetry(): Loader {
    Loader(map[0 := OLD, 1 := NEW], {}, Some(map[0 := OLD, 1 := NEW]), 100_000, false, 2, 0, Returned)
  }

  /** Every source was brought by a pass before the one under way, whose outcomes are its own. */
  ghost predicate SourcesOlder(l: Loader) {
    && (forall k | k in l.sources :: l.sources[k].pass <= l.generation)
    && (l.phase.Awaiting? ==>
      && l.phase.pass <= l.generation
      && (forall k | k in l.sources :: l.sources[k].pass < l.phase.pass)
      && forall i | 0 <= i < |l.phase.settled| :: l.phase.settled[i].pass == l.phase.pass)
  }

  lemma {:induction false} CommittedPass(wanted: seq<Key>, settled: seq<Fetch>, sources: map<Key, Fetch>, n: nat,
          k: Key, pass: nat)
    requires n <= |wanted| && forall i | 0 <= i < |settled| :: settled[i].pass == pass
    requires k in sources ==> sources[k].pass <= pass
    ensures k in Committed(wanted, settled, sources, n) ==> Committed(wanted, settled, sources, n)[k].pass <= pass
  {
    if n > 0 {
      CommittedPass(wanted, settled, sources, n - 1, k, pass);
    }
  }

  lemma CommitKeepsOlder(l: Loader, wanted: seq<Key>, settled: seq<Fetch>, now: int, pass: nat)
    requires forall k | k in l.sources :: l.sources[k].pass <= pass
    requires pass <= l.generation && forall i | 0 <= i < |settled| :: settled[i].pass == pass
    ensures SourcesOlder(Commit(l, wanted, settled, now))
  {
    var next := Commit(l, wanted, settled, now);
    forall k | k in next.sources ensures next.sources[k].pass <= l.generation {
      CommittedPass(wanted, settled, l.sources, |wanted|, k, pass);
    }
  }

  lemma PassKeepsOlder(l: Loader, c: Config, now: int)
    requires forall k | k in l.sources :: l.sources[k].pass <= l.generation
    ensures SourcesOlder(Pass(l, c, now))
  {
    var armed := l.(pending := Armed(l, c), generation := l.generation + 1);
    if !Fresh(l, c, now) && Chunks(Wanted(c.requests, armed.pending)) == [] {
      CommitKeepsOlder(armed, [], [], now, armed.generation);
    }
  }

  lemma ApplyKeepsOlder(l: Loader, c: Config, s: Step, now: int)
    requires SourcesOlder(l) && Enabled(l, s)
    ensures SourcesOlder(Apply(l, c, s, now))
  {
    match s
    case EnsureStep => PassKeepsOlder(l, c, now);
    case SettleStep(outcomes) =>
      PassKeepsOlder(l, c, now);
      CommitKeepsOlder(l, l.phase.wanted, Outcomes(l.phase, outcomes), now, l.phase.pass);
    case _ =>
  }

  lemma {:induction false} RunKeepsOlder(l: Loader, c: Config, entries: seq<Entry>)
    requires SourcesOlder(l) && CanRun(l, c, entries)
    ensures SourcesOlder(Run(l, c, entries))
    decreases |entries|
  {
    if entries != [] {
      ApplyKeepsOlder(l, c, entries[0].step, entries[0].now);
      RunKeepsOlder(Apply(l, c, entries[0].step, entries[0].now), c, entries[1..]);
    }
  }

  lemma {:induction false} CommittedByPass(wanted: seq<Key>, settled: seq<Fetch>, sources: map<Key, Fetch>, n: nat,
          k: Key, pass: nat)
    requires n <= |wanted| == |settled| && forall i | 0 <= i < |settled| :: settled[i].pass == pass
    requires k in sources ==> sources[k].pass < pass
    ensures var after := Committed(wanted, settled, sources, n);
      (k in after && after[k].pass == pass) <==> exists i :: 0 <= i < n && wanted[i] == k && settled[i].rows.Some?
    ensures k !in wanted[..n]
      ==> k !in Committed(wanted, settled, sources, n) || Committed(wanted, settled, sources, n)[k].pass < pass
  {
    if n > 0 {
      assert wanted[..n] == wanted[..n - 1] + [wanted[n - 1]];
      CommittedByPass(wanted, settled, sources, n - 1, k, pass);
    }
  }

  /**
   * In a committed index that is not stale, the sources sent for since the pass began are exactly those that
   * were pending when it did. So all are exactly when the pass asked for all; any other is as old as an earlier
   * pass left it.
   */
  lemma RenewedSources(l: Loader, c: Config, outcomes: seq<Option<Rows>>, now: int)
    requires Reachable(l, c) && Commits(l, outcomes) && !BatchSettled(l, c, outcomes, now).stale
    ensures BatchSettled(l, c, outcomes, now).builtAt == now
    ensures forall k | k in c.requests :: Renewed(l, c, outcomes, now, k)
  {
    var entries :| CanRun(NewLoader(c), c, entries) && l == Run(NewLoader(c), c, entries);
    RunKeepsOlder(NewLoader(c), c, entries);
    ReachableInv(l, c);
    BatchSettledKeeps(l, c, outcomes, now);
    StampedAligned(l.phase, outcomes);
    assert Flatten(l.phase.rest) == [];
    forall k | k in c.requests ensures Renewed(l, c, outcomes, now, k) {
      SourceRenewed(l, c, outcomes, now, k);
    }
  }

  /** The commit of one source: by this pass if it asked for it, else what there was. */
  ghost predicate Renewed(l: Loader, c: Config, outcomes: seq<Option<Rows>>, now: int, k: Key)
    requires Commits(l, outcomes)
  {
    var next := BatchSettled(l, c, outcomes, now);
    && next.index.Some? && k in next.index.value && next.index.value[k].pass <= l.phase.pass
    && (next.index.value[k].pass == l.phase.pass <==> k in l.phase.wanted)
    && (k !in l.phase.wanted ==> k in l.sources && next.index.value[k] == l.sources[k])
  }

  lemma SourceRenewed(l: Loader, c: Config, outcomes: seq<Option<Rows>>, now: int, k: Key)
    requires LoaderInv(l, c) && SourcesOlder(l) && Commits(l, outcomes) && k in c.requests
      && !BatchSettled(l, c, outcomes, now).stale
    requires LoaderInv(BatchSettled(l, c, outcomes, now), c)
    requires |Outcomes(l.phase, outcomes)| == |l.phase.wanted|
    requires forall i | 0 <= i < |l.phase.wanted| :: Outcomes(l.phase, outcomes)[i].key == l.phase.wanted[i]
    ensures Renewed(l, c, outcomes, now, k)
  {
    var settled, wanted := Outcomes(l.phase, outcomes), l.phase.wanted;
    CommittedByPass(wanted, settled, l.sources, |wanted|, k, l.phase.pass);
    CommittedPass(wanted, settled, l.sources, |wanted|, k, l.phase.pass);
    CommittedKeys(wanted, settled, l.sources, |wanted|, k, l.invalidations);
    FailedAre(wanted, settled, |wanted|, k);
    assert wanted[..|wanted|] == wanted;
    var next := BatchSettled(l, c, outcomes, now);
    assert next.pending == {};
    assert Current(next.index.value, k, next.invalidations);
    if k in wanted {
      var i :| 0 <= i < |wanted| && wanted[i] == k;
      assert settled[i].key == k;
    }
  }

  /** A source may be far older than the index's time says: the retry of another one renewed it. */
  lemma RetryRenewsTime()
    ensures var l := AfterRetry();
      Reachable(l, TWO_SOURCES) && Fresh(l, TWO_SOURCES, 100_000)
        && 100_000 - l.index.value[0].begunAt > TWO_SOURCES.maxAgeMs
  {
    var c, l0 := TWO_SOURCES, NewLoader(TWO_SOURCES);
    FirstPass();
    SecondPass();
    var e0, e1, e2 := Entry(EnsureStep, 0), Entry(SettleStep([BROUGHT, None]), 0), Entry(ForgetStep, 0);
    var e3, e4 := Entry(EnsureStep, 100_000), Entry(SettleStep([BROUGHT]), 100_000);
    RunCons(Ensure(AfterFailure(), c, 100_000), c, e4, [], AfterRetry());
    RunCons(AfterFailure(), c, e3, [e4], AfterRetry());
    RunCons(AfterFailure().(phase := Returned), c, e2, [e3, e4], AfterRetry());
    RunCons(Ensure(l0, c, 0), c, e1, [e2, e3, e4], AfterRetry());
    RunCons(l0, c, e0, [e1, e2, e3, e4], AfterRetry());
  }

  function AskedBoth(): Loader {
    Loader(map[], {0, 1}, None, 0, true, 1, 0, Awaiting(1, [0, 1], [], [0, 1], 0, 0, []))
  }

  lemma FirstPass()
    ensures var l1 := Ensure(NewLoader(TWO_SOURCES), TWO_SOURCES, 0);
      l1.phase.Awaiting? && |l1.phase.batch| == 2
      && BatchSettled(l1, TWO_SOURCES, [BROUGHT, None], 0) == AfterFailure().(phase := Returned)
  {
    FirstAsked();
    FirstCommitted([] + Stamped([0, 1], 1, 0, 0, [BROUGHT, None]));
  }

  lemma FirstAsked()
    ensures Ensure(NewLoader(TWO_SOURCES), TWO_SOURCES, 0) == AskedBoth()
  {
    assert [0, 1][..1] == [0];
    assert Wanted([0], {0, 1}) == [0];
    assert Wanted([0, 1], {0, 1}) == [0, 1];
    assert Keys([0, 1]) == {0, 1};
    assert NewLoader(TWO_SOURCES).pending == {0, 1};
    assert Chunks([0, 1]) == [[0, 1]] && [[0, 1]][1..] == [];
  }

  lemma FirstCommitted(settled: seq<Fetch>)
    requires settled == [] + Stamped([0, 1], 1, 0, 0, [BROUGHT, None])
    ensures Commit(AskedBoth(), [0, 1], settled, 0) == AfterFailure().(phase := Returned)
  {
    assert settled == [OLD, Fetch(1, 1, 0, 0, None)];
    assert Failed([0, 1], settled, 1) == {};
    assert Failed([0, 1], settled, 2) == {1};
    assert Committed([0, 1], settled, map[], 0) == map[];
    assert Committed([0, 1], settled, map[], 1) == map[0 := OLD];
    assert Committed([0, 1], settled, map[], 2) == map[0 := OLD];
  }

  lemma SecondPass()
    ensures var l4 := Ensure(AfterFailure(), TWO_SOURCES, 100_000);
      l4.phase.Awaiting? && |l4.phase.batch| == 1 && BatchSettled(l4, TWO_SOURCES, [BROUGHT], 100_000) == AfterRetry()
  {
    assert [0, 1][..1] == [0];
    assert Wanted([0], {1}) == [];
    assert Wanted([0, 1], {1}) == [1];
    var settled := [] + Stamped([1], 2, 0, 100_000, [BROUGHT]);
    assert settled == [NEW];
    assert Failed([1], settled, 0) == {};
    assert Failed([1], settled, 1) == {};
    assert Committed([1], settled, map[0 := OLD], 0) == map[0 := OLD];
    assert Committed([1], settled, map[0 := OLD], 1) == map[0 := OLD, 1 := NEW];
  }

  lemma RunCons(l: Loader, c: Config, e: Entry, rest: seq<Entry>, end: Loader)
    requires Enabled(l, e.step)
    requires var next := Apply(l, c, e.step, e.now); CanRun(next, c, rest) && Run(next, c, rest) == end
    ensures CanRun(l, c, [e] + rest) && Run(l, c, [e] + rest) == end
  {
    assert ([e] + rest)[1..] == rest;
  }
}
