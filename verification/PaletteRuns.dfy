/** How old the palette's index is, read off a run (apps/api/dashboard/dashboard.js, `createPaletteIndexLoader`). */
module PaletteRuns {
  import opened Wrappers
  import opened PaletteLoader
  import opened PaletteGuarantees

  /** While a load is under way, every further caller shares it. */
  lemma LoadIsShared(l: Loader, c: Config, entries: seq<Entry>)
    requires !l.phase.Idle? && forall i | 0 <= i < |entries| :: entries[i].step.EnsureStep?
    ensures CanRun(l, c, entries) && Run(l, c, entries) == l
    decreases |entries|
  {
    if entries != [] {
      LoadIsShared(l, c, entries[1..]);
    }
  }

  /** A batch that settles is followed by the next requests of the pass, in order, until none is left. */
  lemma NextBatchFollows(l: Loader, c: Config, outcomes: seq<Option<Rows>>, now: int)
    requires Reachable(l, c) && l.phase.Awaiting? && |outcomes| == |l.phase.batch|
    ensures var p, next := l.phase, BatchSettled(l, c, outcomes, now);
      var done := |p.settled| + |p.batch|;
      && done <= |p.wanted| && p.batch == p.wanted[|p.settled|..done] && (p.rest == [] <==> done == |p.wanted|)
      && (done < |p.wanted| ==>
           && next.phase.Awaiting? && next.phase.wanted == p.wanted && next.phase.pass == p.pass
           && next.phase.settled == p.settled + Stamped(p.batch, p.pass, p.epoch, p.begunAt, outcomes)
           && next.phase.begunAt == now && next == l.(phase := next.phase))
  {
    ReachableInv(l, c);
    var p := l.phase;
    var tail := p.wanted[|p.settled|..];
    assert tail[..|p.batch|] == p.batch;
    if p.rest != [] {
      FlattenCons(p.rest[0], p.rest[1..]);
      assert p.rest == [p.rest[0]] + p.rest[1..];
    }
  }

  // ---------------------------------------------------------------- when the index was last complete

  /** The last request of a pass that nothing superseded, with every request of the pass answered. */
  predicate Completes(l: Loader, e: Entry) {
    && e.step.SettleStep? && Commits(l, e.step.outcomes)
    && forall i | 0 <= i < |Outcomes(l.phase, e.step.outcomes)| :: Outcomes(l.phase, e.step.outcomes)[i].rows.Some?
  }

  /** An invalidation, or the end of such a pass, whether or not all of it was answered. */
  predicate Disturbs(l: Loader, e: Entry) {
    e.step.InvalidateStep? || (e.step.SettleStep? && Commits(l, e.step.outcomes))
  }

  predicate FreshSince(l: Loader, time: int) {
    !l.stale && l.builtAt == time
  }

  lemma PassKeepsAge(l: Loader, c: Config, now: int, time: int)
    requires SettledCurrent(l, c) && c.requests != []
    ensures FreshSince(Pass(l, c, now), time) <==> FreshSince(l, time)
  {
    if !Fresh(l, c, now) {
      var pending := Armed(l, c);
      WantedMembers(c.requests, pending);
      assert c.requests[0] in Keys(c.requests);
      var k :| k in pending;
      assert k in Wanted(c.requests, pending);
      ChunksAreBatches(Wanted(c.requests, pending));
    }
  }

  lemma CommitAge(l: Loader, c: Config, e: Entry, time: int)
    requires LoaderInv(l, c) && e.step.SettleStep? && Commits(l, e.step.outcomes)
    ensures FreshSince(Apply(l, c, e.step, e.now), time) <==> Completes(l, e) && e.now == time
  {
    var wanted, settled := l.phase.wanted, Outcomes(l.phase, e.step.outcomes);
    StampedAligned(l.phase, e.step.outcomes);
    assert Flatten(l.phase.rest) == [];
    assert |settled| == |wanted|;
    var failed := Failed(wanted, settled, |wanted|);
    if failed != {} {
      var k :| k in failed;
      FailedAre(wanted, settled, |wanted|, k);
    }
    if !Completes(l, e) {
      var i :| 0 <= i < |settled| && settled[i].rows.None?;
      FailedAre(wanted, settled, |wanted|, wanted[i]);
    }
  }

  lemma StepAge(l: Loader, c: Config, e: Entry, time: int)
    requires LoaderInv(l, c) && c.requests != [] && Enabled(l, e.step)
    ensures FreshSince(Apply(l, c, e.step, e.now), time) <==>
      if Disturbs(l, e) then Completes(l, e) && e.now == time else FreshSince(l, time)
  {
    if e.step.SettleStep? && Commits(l, e.step.outcomes) {
      CommitAge(l, c, e, time);
    } else {
      PassKeepsAge(l, c, e.now, time);
    }
  }

  /** The loader before entry `i` of a run. */
  function At(l: Loader, c: Config, entries: seq<Entry>, i: nat): Loader
    requires CanRun(l, c, entries) && i <= |entries|
    decreases i
  {
    if i == 0 then l else At(Apply(l, c, entries[0].step, entries[0].now), c, entries[1..], i - 1)
  }

  ghost predicate Undisturbed(l: Loader, c: Config, entries: seq<Entry>, from: nat)
    requires CanRun(l, c, entries)
  {
    forall i | from <= i < |entries| :: !Disturbs(At(l, c, entries, i), entries[i])
  }

  /** Entry `i` completes the index, at this time, and nothing has disturbed it since. */
  ghost predicate CompletedAt(l: Loader, c: Config, entries: seq<Entry>, i: nat, time: int)
    requires CanRun(l, c, entries) && i < |entries|
  {
    Completes(At(l, c, entries, i), entries[i]) && entries[i].now == time && Undisturbed(l, c, entries, i + 1)
  }

  ghost predicate Completed(l: Loader, c: Config, entries: seq<Entry>, time: int)
    requires CanRun(l, c, entries)
  {
    exists i | 0 <= i < |entries| :: CompletedAt(l, c, entries, i, time)
  }

  lemma UndisturbedTail(l: Loader, c: Config, entries: seq<Entry>, from: nat)
    requires CanRun(l, c, entries) && entries != [] && from < |entries|
    ensures var next := Apply(l, c, entries[0].step, entries[0].now);
      Undisturbed(l, c, entries, from + 1) <==> Undisturbed(next, c, entries[1..], from)
  {
    var next, rest := Apply(l, c, entries[0].step, entries[0].now), entries[1..];
    assert forall i | 0 <= i < |rest| :: rest[i] == entries[i + 1] && At(next, c, rest, i) == At(l, c, entries, i + 1);
    if Undisturbed(l, c, entries, from + 1) {
      forall i | from <= i < |rest| ensures !Disturbs(At(next, c, rest, i), rest[i]) {
        assert !Disturbs(At(l, c, entries, i + 1), entries[i + 1]);
      }
    }
    if Undisturbed(next, c, rest, from) {
      forall i | from + 1 <= i < |entries| ensures !Disturbs(At(l, c, entries, i), entries[i]) {
        assert !Disturbs(At(next, c, rest, i - 1), rest[i - 1]);
      }
    }
  }

  lemma UndisturbedHead(l: Loader, c: Config, entries: seq<Entry>)
    requires CanRun(l, c, entries) && entries != []
    ensures Undisturbed(l, c, entries, 0) <==> !Disturbs(l, entries[0]) && Undisturbed(l, c, entries, 1)
  {
    assert At(l, c, entries, 0) == l;
  }

  lemma CompletedTail(l: Loader, c: Config, entries: seq<Entry>, time: int)
    requires CanRun(l, c, entries) && entries != []
    ensures var next := Apply(l, c, entries[0].step, entries[0].now);
      Completed(l, c, entries, time) <==>
      CompletedAt(l, c, entries, 0, time) || Completed(next, c, entries[1..], time)
  {
    var next, rest := Apply(l, c, entries[0].step, entries[0].now), entries[1..];
    forall i | 0 <= i < |rest|
      ensures CompletedAt(next, c, rest, i, time) <==> CompletedAt(l, c, entries, i + 1, time) {
      UndisturbedTail(l, c, entries, i + 1);
    }
    if Completed(next, c, rest, time) {
      var i :| 0 <= i < |rest| && CompletedAt(next, c, rest, i, time);
      assert CompletedAt(l, c, entries, i + 1, time);
    }
    if Completed(l, c, entries, time) {
      var i :| 0 <= i < |entries| && CompletedAt(l, c, entries, i, time);
      assert i > 0 ==> CompletedAt(next, c, rest, i - 1, time);
    }
  }

  lemma {:induction false} RunAge(l: Loader, c: Config, entries: seq<Entry>, time: int)
    requires LoaderInv(l, c) && c.requests != [] && CanRun(l, c, entries)
    ensures FreshSince(Run(l, c, entries), time) <==>
      Completed(l, c, entries, time) || (FreshSince(l, time) && Undisturbed(l, c, entries, 0))
    decreases |entries|
  {
    if entries != [] {
      var e := entries[0];
      var next := Apply(l, c, e.step, e.now);
      ApplyKeeps(l, c, e.step, e.now);
      StepAge(l, c, e, time);
      RunAge(next, c, entries[1..], time);
      UndisturbedTail(l, c, entries, 0);
      UndisturbedHead(l, c, entries);
      CompletedTail(l, c, entries, time);
    }
  }

  /**
   * Over every run, a caller is answered without a request exactly when a pass that nothing superseded answered
   * everything it asked for, at most `maxAgeMs` ago, and since then no other pass came to its end and nothing was
   * invalidated.
   */
  lemma AnsweredByAge(c: Config, entries: seq<Entry>, now: int)
    requires c.requests != [] && CanRun(NewLoader(c), c, entries) && Run(NewLoader(c), c, entries).phase.Idle?
    ensures Ensure(Run(NewLoader(c), c, entries), c, now).phase.Returned? <==>
      exists time: int :: Completed(NewLoader(c), c, entries, time) && now - time <= c.maxAgeMs
  {
    var l := Run(NewLoader(c), c, entries);
    assert Reachable(l, c);
    ReachableInv(l, c);
    AnsweredAtOnceIff(l, c, now);
    RunAge(NewLoader(c), c, entries, l.builtAt);
    if exists time: int :: Completed(NewLoader(c), c, entries, time) && now - time <= c.maxAgeMs {
      var time: int :| Completed(NewLoader(c), c, entries, time) && now - time <= c.maxAgeMs;
      RunAge(NewLoader(c), c, entries, time);
    }
  }
}
