/** What holds of a terminal's input in every run (apps/api/dashboard/dashboard-terminal.js). */
module TerminalGuarantees {
  import opened Wrappers
  import opened TerminalInput

  // ---------------------------------------------------------------- order

  /** `a` is `b` with some bytes left out. */
  ghost predicate Subsequence(a: seq<byte>, b: seq<byte>)
    decreases |b|
  {
    || a == []
    || (b != [] && Subsequence(a, b[..|b| - 1]))
    || (b != [] && a[|a| - 1] == b[|b| - 1] && Subsequence(a[..|a| - 1], b[..|b| - 1]))
  }

  lemma {:induction false} SubsequenceShorter(a: seq<byte>, b: seq<byte>)
    requires Subsequence(a, b) && a != []
    ensures Subsequence(a[..|a| - 1], b)
    decreases |b|
  {
    if Subsequence(a, b[..|b| - 1]) {
      SubsequenceShorter(a, b[..|b| - 1]);
    }
  }

  /** Leaving out an end keeps a subsequence. */
  lemma {:induction false} SubsequencePrefix(a: seq<byte>, c: seq<byte>, b: seq<byte>)
    requires Subsequence(a + c, b)
    ensures Subsequence(a, b)
    decreases |c|
  {
    if c == [] {
      assert a + c == a;
    } else {
      SubsequenceShorter(a + c, b);
      assert (a + c)[..|a + c| - 1] == a + c[..|c| - 1];
      SubsequencePrefix(a, c[..|c| - 1], b);
    }
  }

  /** Taking in more at the end of both keeps a subsequence. */
  lemma {:induction false} SubsequenceAppend(a: seq<byte>, b: seq<byte>, c: seq<byte>)
    requires Subsequence(a, b)
    ensures Subsequence(a + c, b + c)
    decreases |c|
  {
    if c == [] {
      assert a + c == a && b + c == b;
    } else {
      SubsequenceAppend(a, b, c[..|c| - 1]);
      assert (a + c)[..|a + c| - 1] == a + c[..|c| - 1];
      assert (b + c)[..|b + c| - 1] == b + c[..|c| - 1];
    }
  }

  // ---------------------------------------------------------------- invariants

  /** What is kept was taken in, in this order. */
  ghost predicate InOrder(s: Session) {
    Subsequence(Kept(s), s.accepted)
  }

  ghost predicate PumpInv(s: Session) {
    && Solid(s.queue)
    && (s.pump.Sending? ==> 1 <= |s.pump.chunk| <= TERMINAL_INPUT_CHUNK_BYTES && s.pump.attempt <= INPUT_RETRY_LIMIT)
    && (s.pump.Waiting? ==> 1 <= s.pump.attempt <= INPUT_RETRY_LIMIT)
  }

  ghost predicate SessionInv(s: Session) {
    InOrder(s) && PumpInv(s)
  }

  /** `s` loses `lost` from the end of what it keeps. */
  lemma DropEnd(s: Session, next: Session, lost: seq<byte>)
    requires InOrder(s) && Kept(next) + lost == Kept(s) && next.accepted == s.accepted
    ensures InOrder(next)
  {
    SubsequencePrefix(Kept(next), lost, s.accepted);
  }

  lemma ClearKeeps(s: Session)
    requires SessionInv(s)
    ensures SessionInv(Clear(s))
  {
    assert Kept(Clear(s)) + Bytes(s.queue) == Kept(s);
    DropEnd(s, Clear(s), Bytes(s.queue));
  }

  lemma AdoptKeeps(s: Session, view: Option<Phase>)
    requires SessionInv(s)
    ensures SessionInv(AdoptView(s, view))
  {
    if view.Some? {
      var next := s.(phase := view.value);
      assert Kept(next) == Kept(s);
      ClearKeeps(next);
    }
  }

  lemma ContinueKeeps(s: Session, attempt: nat)
    requires SessionInv(s) && s.pump.NoPump? && attempt <= INPUT_RETRY_LIMIT
    ensures SessionInv(Continue(s, attempt))
  {
    TakeSplits(s.queue, TERMINAL_INPUT_CHUNK_BYTES);
    TakeSolid(s.queue, TERMINAL_INPUT_CHUNK_BYTES);
    var next := Continue(s, attempt);
    if next.pump.Sending? {
      assert s.delivered + [] + Bytes(s.queue) == s.delivered + next.pump.chunk + Bytes(next.queue);
    }
  }

  lemma QueueKeeps(s: Session, bytes: seq<byte>)
    requires SessionInv(s) && bytes != []
    ensures SessionInv(s.(queue := s.queue + [bytes], accepted := s.accepted + bytes))
  {
    var next := s.(queue := s.queue + [bytes], accepted := s.accepted + bytes);
    BytesAppend(s.queue, bytes);
    var front := s.delivered + InFlight(s.pump);
    assert front + (Bytes(s.queue) + bytes) == (front + Bytes(s.queue)) + bytes;
    SubsequenceAppend(Kept(s), s.accepted, bytes);
  }

  lemma DeliveredKeeps(s: Session, view: Option<Phase>)
    requires SessionInv(s) && s.pump.Sending?
    ensures SessionInv(InputDelivered(s, view))
  {
    var done := s.(delivered := s.delivered + s.pump.chunk, pump := NoPump);
    assert Kept(done) == Kept(s) by {
      assert (s.delivered + s.pump.chunk) + [] == s.delivered + s.pump.chunk;
    }
    AdoptKeeps(done, view);
    ContinueKeeps(AdoptView(done, view), 0);
  }

  lemma PutBack(s: Session)
    requires s.pump.Sending?
    ensures Kept(InputRefused(s, Retryable)) == Kept(s) || !InputRefused(s, Retryable).pump.Waiting?
  {
    assert ([s.pump.chunk] + s.queue)[1..] == s.queue;
    assert s.delivered + [] + (s.pump.chunk + Bytes(s.queue)) == s.delivered + s.pump.chunk + Bytes(s.queue);
  }

  lemma RefusedKeeps(s: Session, refusal: Refusal)
    requires SessionInv(s) && s.pump.Sending?
    ensures SessionInv(InputRefused(s, refusal))
  {
    var chunk := s.pump.chunk;
    var next := InputRefused(s, refusal);
    if next.pump.Waiting? {
      PutBack(s);
    } else {
      assert Kept(next) == s.delivered;
      assert s.delivered + (chunk + Bytes(s.queue)) == s.delivered + chunk + Bytes(s.queue);
      DropEnd(s, next, chunk + Bytes(s.queue));
    }
  }

  lemma ApplyKeeps(s: Session, step: Step)
    requires SessionInv(s) && Enabled(s, step)
    ensures SessionInv(Apply(s, step))
  {
    match step
    case SendStep(bytes) => SendKeeps(s, bytes);
    case DeliveredStep(view) => DeliveredKeeps(s, view);
    case RefusedStep(refusal) => RefusedKeeps(s, refusal);
    case DelayEnds => DelayKeeps(s);
    case ReadStep(view, more, pause) =>
      AdoptKeeps(s, view);
      SameKept(AdoptView(s, view), ReadPage(s, view, more, pause));
    case ReadGone => LoseKeeps(s);
    case ReadStops => SameKept(s, s.(phase := Errored, reader := NoReader));
    case ReadFails => SameKept(s, Apply(s, step));
    case ReadDelayEnds => SameKept(s, Apply(s, step));
    case _ =>
      if step.ResizeBegins? || step.ResizeAnswered? || step.ResizeFails? {
        ResizeKeeps(s, step);
      } else {
        EndKeeps(s, step);
      }
  }

  lemma SendKeeps(s: Session, bytes: seq<byte>)
    requires SessionInv(s)
    ensures SessionInv(Send(s, bytes).0)
  {
    if bytes != [] {
      QueueKeeps(s, bytes);
      if s.pump.NoPump? {
        ContinueKeeps(s.(queue := s.queue + [bytes], accepted := s.accepted + bytes), 0);
      }
    }
  }

  lemma DelayKeeps(s: Session)
    requires SessionInv(s) && s.pump.Waiting?
    ensures SessionInv(Continue(s.(pump := NoPump), s.pump.attempt))
  {
    assert Kept(s.(pump := NoPump)) == Kept(s);
    ContinueKeeps(s.(pump := NoPump), s.pump.attempt);
  }

  lemma ResizeKeeps(s: Session, step: Step)
    requires SessionInv(s) && Enabled(s, step) && (step.ResizeBegins? || step.ResizeAnswered? || step.ResizeFails?)
    ensures SessionInv(Apply(s, step))
  {
    if step.ResizeBegins? {
      SameKept(s, Apply(s, step));
    } else {
      var settled := s.(resizes := s.resizes - 1);
      if step.ResizeAnswered? {
        ResizedKeeps(s, settled, step.view);
      } else {
        FailKeeps(s, settled, step.gone);
      }
    }
  }

  lemma EndKeeps(s: Session, step: Step)
    requires SessionInv(s) && Enabled(s, step)
      && (step.CloseBegins? || step.CloseAnswered? || step.CloseFails? || step.DisposeStep?)
    ensures SessionInv(Apply(s, step))
  {
    match step
    case CloseBegins => SameKept(s, s.(closes := s.closes + 1));
    case CloseAnswered => CloseKeeps(s, s.(closes := s.closes - 1));
    case CloseFails(gone) => FailKeeps(s, s.(closes := s.closes - 1), gone);
    case DisposeStep => DisposeKeeps(s);
  }

  /** Apart from the requests on their way, and what no input depends on, the session is the same. */
  predicate SameInput(s: Session, next: Session) {
    next.queue == s.queue && next.pump == s.pump && next.delivered == s.delivered && next.accepted == s.accepted
  }

  lemma ResizedKeeps(s: Session, settled: Session, view: Option<Phase>)
    requires SessionInv(s) && SameInput(s, settled)
    ensures SessionInv(AdoptView(settled, view))
  {
    SameKept(s, settled);
    AdoptKeeps(settled, view);
  }

  lemma FailKeeps(s: Session, settled: Session, gone: bool)
    requires SessionInv(s) && SameInput(s, settled)
    ensures SessionInv(IfGone(settled, gone))
  {
    SameKept(s, settled);
    LoseKeeps(settled);
  }

  lemma DisposeKeeps(s: Session)
    requires SessionInv(s)
    ensures SessionInv(AbortRead(Clear(s.(disposed := true))))
  {
    SameKept(s, s.(disposed := true));
    ClearKeeps(s.(disposed := true));
    SameKept(Clear(s.(disposed := true)), AbortRead(Clear(s.(disposed := true))));
  }

  lemma CloseKeeps(s: Session, settled: Session)
    requires SessionInv(s) && SameInput(s, settled)
    ensures SessionInv(CloseDone(settled))
  {
    ResizedKeeps(s, settled, Some(Ended));
    SameKept(AdoptView(settled, Some(Ended)), CloseDone(settled));
  }

  lemma LoseKeeps(s: Session)
    requires SessionInv(s)
    ensures SessionInv(Lose(s))
  {
    ClearKeeps(s);
    SameKept(Clear(s), Lose(s));
  }

  lemma SameKept(s: Session, next: Session)
    requires SessionInv(s) && SameInput(s, next)
    ensures SessionInv(next)
  {}

  lemma {:induction false} RunKeeps(s: Session, steps: seq<Step>)
    requires SessionInv(s) && CanRun(s, steps)
    ensures SessionInv(Run(s, steps))
    decreases |steps|
  {
    if steps != [] {
      ApplyKeeps(s, steps[0]);
      RunKeeps(Apply(s, steps[0]), steps[1..]);
    }
  }

  // ---------------------------------------------------------------- what is lost, and when

  /** How many bytes were taken in and are neither delivered nor kept. */
  function Missing(s: Session): int {
    |s.accepted| - |Kept(s)|
  }

  /** The step ends the input: its chunk is refused for good, or unsent input is cleared. */
  predicate Drops(s: Session, step: Step) {
    match step
    case RefusedStep(refusal) => !refusal.Retryable? || (s.pump.Sending? && s.pump.attempt >= INPUT_RETRY_LIMIT)
    case DeliveredStep(view) => Stops(view) && s.queue != []
    case ReadStep(view, _, _) => Stops(view) && s.queue != []
    case ResizeAnswered(view) => Stops(view) && s.queue != []
    case CloseAnswered => s.queue != []
    case ResizeFails(gone) => gone && s.queue != []
    case CloseFails(gone) => gone && s.queue != []
    case ReadGone => s.queue != []
    case DisposeStep => s.queue != []
    case _ => false
  }

  predicate Stops(view: Option<Phase>) {
    view.Some? && !view.value.Running?
  }

  lemma SolidBytes(queue: seq<seq<byte>>)
    requires Solid(queue)
    ensures |Bytes(queue)| > 0 <==> queue != []
  {
    if queue != [] {
      assert queue[0] != [];
    }
  }

  lemma ContinueMisses(s: Session, attempt: nat)
    requires s.pump.NoPump?
    ensures Missing(Continue(s, attempt)) == Missing(s)
  {
    TakeSplits(s.queue, TERMINAL_INPUT_CHUNK_BYTES);
    var (chunk, rest) := Take(s.queue, TERMINAL_INPUT_CHUNK_BYTES);
    assert |chunk + Bytes(rest)| == |chunk| + |Bytes(rest)|;
  }

  lemma SendMisses(s: Session, bytes: seq<byte>)
    ensures Missing(Send(s, bytes).0) == Missing(s)
  {
    BytesAppend(s.queue, bytes);
    var queued := s.(queue := s.queue + [bytes], accepted := s.accepted + bytes);
    assert Missing(queued) == Missing(s);
    if s.pump.NoPump? {
      ContinueMisses(queued, 0);
    }
  }

  lemma DeliveredMisses(s: Session, view: Option<Phase>)
    requires s.pump.Sending?
    ensures Missing(InputDelivered(s, view)) == Missing(s) + (if Stops(view) then |Bytes(s.queue)| else 0)
  {
    var done := s.(delivered := s.delivered + s.pump.chunk, pump := NoPump);
    assert Missing(done) == Missing(s);
    ContinueMisses(AdoptView(done, view), 0);
  }

  lemma RefusedMisses(s: Session, refusal: Refusal)
    requires s.pump.Sending?
    ensures Missing(InputRefused(s, refusal)) == Missing(s)
      + (if Drops(s, RefusedStep(refusal)) then |s.pump.chunk| + |Bytes(s.queue)| else 0)
  {
    if !Drops(s, RefusedStep(refusal)) {
      PutBack(s);
    }
  }

  lemma OtherMisses(s: Session, step: Step)
    requires Enabled(s, step) && !step.SendStep? && !step.DeliveredStep? && !step.RefusedStep? && !step.DelayEnds?
    ensures Missing(Apply(s, step)) == Missing(s) + (if Drops(s, step) then |Bytes(s.queue)| else 0)
  {}

  /** A step loses bytes that were taken in exactly when it is one of these, and none ever comes back. */
  lemma LossIff(s: Session, step: Step)
    requires SessionInv(s) && Enabled(s, step)
    ensures Missing(Apply(s, step)) >= Missing(s)
    ensures Missing(Apply(s, step)) > Missing(s) <==> Drops(s, step)
  {
    SolidBytes(s.queue);
    match step
    case SendStep(bytes) => SendMisses(s, bytes);
    case DeliveredStep(view) => DeliveredMisses(s, view);
    case RefusedStep(refusal) => RefusedMisses(s, refusal);
    case DelayEnds => ContinueMisses(s.(pump := NoPump), s.pump.attempt);
    case _ => OtherMisses(s, step);
  }

  /** Some step of the run is one of them. */
  predicate DropsIn(s: Session, steps: seq<Step>)
    requires CanRun(s, steps)
    decreases |steps|
  {
    steps != [] && (Drops(s, steps[0]) || DropsIn(Apply(s, steps[0]), steps[1..]))
  }

  lemma {:induction false} RunLossIff(s: Session, steps: seq<Step>)
    requires SessionInv(s) && CanRun(s, steps)
    ensures Missing(Run(s, steps)) >= Missing(s)
    ensures Missing(Run(s, steps)) > Missing(s) <==> DropsIn(s, steps)
    decreases |steps|
  {
    if steps != [] {
      ApplyKeeps(s, steps[0]);
      LossIff(s, steps[0]);
      RunLossIff(Apply(s, steps[0]), steps[1..]);
    }
  }

  /** A subsequence is no longer than the whole, and as long only when it is the whole. */
  lemma {:induction false} SubsequenceLength(a: seq<byte>, b: seq<byte>)
    requires Subsequence(a, b)
    ensures |a| <= |b| && (|a| == |b| ==> a == b)
    decreases |b|
  {
    if a != [] {
      if Subsequence(a, b[..|b| - 1]) {
        SubsequenceLength(a, b[..|b| - 1]);
      } else {
        SubsequenceLength(a[..|a| - 1], b[..|b| - 1]);
        assert a == a[..|a| - 1] + [a[|a| - 1]] && b == b[..|b| - 1] + [b[|b| - 1]];
      }
    }
  }

  /**
   * Whatever is sent, delivered, refused, retried and cleared, in any order: the bytes delivered, in
   * flight and waiting come in the order they were taken in, and they are all of them exactly as long as no
   * step has dropped any. A request carries between 1 and 16384 bytes and is tried at most seven times.
   */
  lemma OrderedInput(steps: seq<Step>)
    requires CanRun(NewSession(), steps)
    ensures var s := Run(NewSession(), steps);
      && Subsequence(s.delivered, s.accepted)
      && (s.accepted == s.delivered + InFlight(s.pump) + Bytes(s.queue) <==> !DropsIn(NewSession(), steps))
      && (s.pump.Sending? ==> 1 <= |s.pump.chunk| <= TERMINAL_INPUT_CHUNK_BYTES && s.pump.attempt <= INPUT_RETRY_LIMIT)
  {
    RunKeeps(NewSession(), steps);
    RunLossIff(NewSession(), steps);
    KeptIsAccepted(Run(NewSession(), steps));
  }

  lemma KeptIsAccepted(s: Session)
    requires InOrder(s)
    ensures Subsequence(s.delivered, s.accepted)
    ensures s.accepted == s.delivered + InFlight(s.pump) + Bytes(s.queue) <==> Missing(s) == 0
  {
    assert s.delivered + (InFlight(s.pump) + Bytes(s.queue)) == Kept(s);
    SubsequencePrefix(s.delivered, InFlight(s.pump) + Bytes(s.queue), s.accepted);
    SubsequenceLength(Kept(s), s.accepted);
  }

  /**
   * A refusal that may be retried keeps every byte, and after its delay the same bytes are tried again first,
   * up to six times.
   */
  lemma RetryTriesAgain(s: Session)
    requires SessionInv(s) && s.pump.Sending? && s.pump.attempt < INPUT_RETRY_LIMIT && Live(s) && s.phase.Running?
    ensures var again := Apply(Apply(s, RefusedStep(Retryable)), DelayEnds);
      && again.pump.Sending? && again.pump.attempt == s.pump.attempt + 1
      && s.pump.chunk <= again.pump.chunk && Kept(again) == Kept(s)
      && again.delivered == s.delivered
  {
    var waiting := InputRefused(s, Retryable);
    PutBack(s);
    TakeSplits(waiting.queue, TERMINAL_INPUT_CHUNK_BYTES);
    assert waiting.queue[0] == s.pump.chunk && |s.pump.chunk| <= TERMINAL_INPUT_CHUNK_BYTES;
    var (chunk, rest) := Take(waiting.queue, TERMINAL_INPUT_CHUNK_BYTES);
    assert s.delivered + [] + Bytes(waiting.queue) == s.delivered + chunk + Bytes(rest);
  }

  /** A caller is told whether its bytes were taken in: all of them, or none. */
  lemma SendTells(s: Session, bytes: seq<byte>)
    ensures var (next, ok) := Send(s, bytes);
      && (ok <==> !s.disposed && s.phase.Running? && bytes != [])
      && next.accepted == s.accepted + (if ok then bytes else [])
      && (!ok ==> next == s)
      && (ok ==> Kept(next) == Kept(s) + bytes && !next.pump.NoPump?)
  {
    var queued := s.(queue := s.queue + [bytes], accepted := s.accepted + bytes);
    BytesAppend(s.queue, bytes);
    var front := s.delivered + InFlight(s.pump);
    assert front + (Bytes(s.queue) + bytes) == (front + Bytes(s.queue)) + bytes;
    assert Kept(queued) == Kept(s) + bytes;
    if s.pump.NoPump? {
      TakeSplits(queued.queue, TERMINAL_INPUT_CHUNK_BYTES);
      var (chunk, rest) := Take(queued.queue, TERMINAL_INPUT_CHUNK_BYTES);
      assert s.delivered + [] + Bytes(queued.queue) == s.delivered + chunk + Bytes(rest);
    }
  }

  // ---------------------------------------------------------------- when reading ends

  /** The step ends the read loop: its page was the last, the terminal is gone or refuses, or the session is over. */
  predicate EndsReading(s: Session, step: Step) {
    match step
    case ReadStep(view, more, _) => !more && !(if view.Some? then view.value else s.phase).Running?
    case ReadGone => true
    case ReadStops => true
    case ReadDelayEnds => s.disposed || s.phase.Lost?
    case RefusedStep(refusal) => refusal.Gone? && s.reader.InRead?
    case ResizeFails(gone) => gone && s.reader.InRead?
    case CloseFails(gone) => gone && s.reader.InRead?
    case CloseAnswered => s.reader.InRead?
    case DisposeStep => s.reader.InRead?
    case _ => false
  }

  /**
   * A step ends the read loop exactly when it is one of these. A loop that goes on pauses after a failure, and after
   * the last page for now if it came early; a read that is refused leaves the session in error.
   */
  lemma ReadingEndsIff(s: Session, step: Step)
    requires Enabled(s, step)
    ensures var next := Apply(s, step);
      && (next.reader.NoReader? <==> s.reader.NoReader? || EndsReading(s, step))
      && (step.ReadFails? ==> next.reader.InDelay? && next.phase == s.phase)
      && (step.ReadStops? ==> next.phase.Errored?)
      && (step.ReadStep? && next.reader.InDelay? <==> step.ReadStep? && !step.more && step.pause && next.phase.Running?)
      && (step.ReadDelayEnds? && !next.reader.NoReader? ==> next.reader.InRead?)
  {}

  /** Once it has ended, nothing starts it again. */
  lemma {:induction false} ReadingStaysOver(s: Session, steps: seq<Step>)
    requires s.reader.NoReader? && CanRun(s, steps)
    ensures Run(s, steps).reader.NoReader?
    decreases |steps|
  {
    if steps != [] {
      ReadingEndsIff(s, steps[0]);
      ReadingStaysOver(Apply(s, steps[0]), steps[1..]);
    }
  }

  // ---------------------------------------------------------------- when refusals drop input

  /** The state before step `i` of a run. */
  function At(s: Session, steps: seq<Step>, i: nat): Session
    requires CanRun(s, steps) && i <= |steps|
    decreases i
  {
    if i == 0 then s else At(Apply(s, steps[0]), steps[1..], i - 1)
  }

  /** A delivery ends a row of refusals, and so does the time without a pump. */
  predicate Breaks(s: Session, step: Step) {
    step.DeliveredStep? || s.pump.NoPump?
  }

  ghost predicate Unbroken(s: Session, steps: seq<Step>, from: nat)
    requires CanRun(s, steps)
  {
    forall i | from <= i < |steps| :: !Breaks(At(s, steps, i), steps[i])
  }

  /** How many of the steps are refusals that may be retried. */
  function Refusals(steps: seq<Step>): nat {
    if steps == [] then 0 else (if steps[0] == RefusedStep(Retryable) then 1 else 0) + Refusals(steps[1..])
  }

  /** In the last steps of the run, that many requests were refused in a row and might be retried. */
  ghost predicate RefusedInARow(s: Session, steps: seq<Step>, times: nat)
    requires CanRun(s, steps)
  {
    exists from :: 0 <= from <= |steps| && Unbroken(s, steps, from) && Refusals(steps[from..]) >= times
  }

  /** The row after one more step, and after many. */
  function NextRow(s: Session, step: Step, row: nat): nat {
    if Breaks(s, step) then 0 else if step == RefusedStep(Retryable) then row + 1 else row
  }

  function Row(s: Session, steps: seq<Step>, row: nat): nat
    requires CanRun(s, steps)
    decreases |steps|
  {
    if steps == [] then row else Row(Apply(s, steps[0]), steps[1..], NextRow(s, steps[0], row))
  }

  predicate CountsRow(pump: Pump, row: nat) {
    match pump
    case NoPump => true
    case Sending(_, attempt) => attempt == row
    case Waiting(attempt) => attempt == row
  }

  lemma StepCountsRow(s: Session, step: Step, row: nat)
    requires Enabled(s, step) && CountsRow(s.pump, row)
    ensures CountsRow(Apply(s, step).pump, NextRow(s, step, row))
  {}

  lemma {:induction false} RunCountsRow(s: Session, steps: seq<Step>, row: nat)
    requires CanRun(s, steps) && CountsRow(s.pump, row)
    ensures CountsRow(Run(s, steps).pump, Row(s, steps, row))
    decreases |steps|
  {
    if steps != [] {
      StepCountsRow(s, steps[0], row);
      RunCountsRow(Apply(s, steps[0]), steps[1..], NextRow(s, steps[0], row));
    }
  }

  lemma UnbrokenTail(s: Session, steps: seq<Step>, from: nat)
    requires CanRun(s, steps) && steps != [] && from < |steps|
    ensures Unbroken(s, steps, from + 1) <==> Unbroken(Apply(s, steps[0]), steps[1..], from)
    ensures Unbroken(s, steps, 0) <==> !Breaks(s, steps[0]) && Unbroken(Apply(s, steps[0]), steps[1..], 0)
    ensures steps[1..][from..] == steps[from + 1..]
  {
    var next, rest := Apply(s, steps[0]), steps[1..];
    assert forall i | 0 <= i < |rest| :: rest[i] == steps[i + 1] && At(next, rest, i) == At(s, steps, i + 1);
    assert At(s, steps, 0) == s;
    if Unbroken(s, steps, from + 1) {
      forall i | from <= i < |rest| ensures !Breaks(At(next, rest, i), rest[i]) {
        assert !Breaks(At(s, steps, i + 1), steps[i + 1]);
      }
    }
    if Unbroken(s, steps, 0) {
      forall i | 0 <= i < |rest| ensures !Breaks(At(next, rest, i), rest[i]) {
        assert !Breaks(At(s, steps, i + 1), steps[i + 1]);
      }
    }
    if Unbroken(next, rest, from) {
      forall i | from + 1 <= i < |steps| ensures !Breaks(At(s, steps, i), steps[i]) {
        assert !Breaks(At(next, rest, i - 1), rest[i - 1]);
      }
    }
    if !Breaks(s, steps[0]) && Unbroken(next, rest, 0) {
      forall i | 0 <= i < |steps| ensures !Breaks(At(s, steps, i), steps[i]) {
        assert i > 0 ==> !Breaks(At(next, rest, i - 1), rest[i - 1]);
      }
    }
  }

  lemma {:induction false} RowIff(s: Session, steps: seq<Step>, row: nat, times: nat)
    requires CanRun(s, steps)
    ensures Row(s, steps, row) >= times <==>
      RefusedInARow(s, steps, times) || (Unbroken(s, steps, 0) && row + Refusals(steps) >= times)
    decreases |steps|
  {
    if steps == [] {
      assert times == 0 ==> Unbroken(s, steps, 0) && Refusals(steps[0..]) >= times;
    } else {
      var next, rest := Apply(s, steps[0]), steps[1..];
      RowIff(next, rest, NextRow(s, steps[0], row), times);
      UnbrokenTail(s, steps, 0);
      RowTail(s, steps, times);
    }
  }

  lemma RowTail(s: Session, steps: seq<Step>, times: nat)
    requires CanRun(s, steps) && steps != []
    ensures RefusedInARow(s, steps, times) <==>
      RefusedInARow(Apply(s, steps[0]), steps[1..], times) || (Unbroken(s, steps, 0) && Refusals(steps) >= times)
  {
    var next, rest := Apply(s, steps[0]), steps[1..];
    if RefusedInARow(s, steps, times) {
      var from :| 0 <= from <= |steps| && Unbroken(s, steps, from) && Refusals(steps[from..]) >= times;
      if from == 0 {
        assert steps[0..] == steps;
      } else {
        UnbrokenTail(s, steps, from - 1);
        assert Refusals(rest[from - 1..]) >= times;
      }
    }
    if RefusedInARow(next, rest, times) {
      var from :| 0 <= from <= |rest| && Unbroken(next, rest, from) && Refusals(rest[from..]) >= times;
      if from < |steps| {
        UnbrokenTail(s, steps, from);
        assert Refusals(steps[from + 1..]) >= times;
      }
    }
    assert steps[0..] == steps;
  }

  /**
   * Over every run, a refusal that may be retried drops input exactly when it is the seventh in a row at least, with
   * no delivery and no new pump in between. Any other keeps every byte and is tried again after a delay.
   */
  lemma RetryDropsIff(steps: seq<Step>)
    requires CanRun(NewSession(), steps) && Run(NewSession(), steps).pump.Sending?
    ensures var s := Run(NewSession(), steps); var next := Apply(s, RefusedStep(Retryable));
      && (Missing(next) > Missing(s) <==> RefusedInARow(NewSession(), steps, 6))
      && (next.pump.Waiting? <==> !RefusedInARow(NewSession(), steps, 6))
  {
    var s := Run(NewSession(), steps);
    RunCountsRow(NewSession(), steps, 0);
    RunKeeps(NewSession(), steps);
    LossIff(s, RefusedStep(Retryable));
    RowIff(NewSession(), steps, 0, 6);
    assert steps[0..] == steps;
  }

  // ---------------------------------------------------------------- the pump never stalls

  /** Input that waits on a live, running terminal has the pump at work on it. */
  predicate Attended(s: Session) {
    s.queue != [] && Live(s) && s.phase.Running? ==> !s.pump.NoPump?
  }

  /**
   * The step says that a terminal which did not run does, while input waits that no pump is at work on: the code
   * then leaves it to the next `send`.
   */
  predicate Strands(s: Session, step: Step) {
    && ((step.ReadStep? && step.view == Some(Running)) || step == ResizeAnswered(Some(Running)))
    && !s.phase.Running? && !s.disposed && s.queue != [] && s.pump.NoPump?
  }

  lemma ContinueAttends(s: Session, attempt: nat)
    ensures Attended(Continue(s, attempt))
  {}

  lemma ViewAttends(s: Session, view: Option<Phase>)
    requires Attended(s)
    ensures Attended(AdoptView(s, view))
      <==> !(view == Some(Running) && !s.phase.Running? && !s.disposed && s.queue != [] && s.pump.NoPump?)
  {}

  lemma SendAttends(s: Session, bytes: seq<byte>)
    requires Attended(s)
    ensures Attended(Send(s, bytes).0)
  {
    ContinueAttends(s.(queue := s.queue + [bytes], accepted := s.accepted + bytes), 0);
  }

  lemma RefusedAttends(s: Session, refusal: Refusal)
    requires s.pump.Sending?
    ensures Attended(InputRefused(s, refusal))
  {}

  lemma StaysAttendedIff(s: Session, step: Step)
    requires Attended(s) && Enabled(s, step)
    ensures Attended(Apply(s, step)) <==> !Strands(s, step)
  {
    match step
    case SendStep(bytes) => SendAttends(s, bytes);
    case DeliveredStep(view) =>
      ContinueAttends(AdoptView(s.(delivered := s.delivered + s.pump.chunk, pump := NoPump), view), 0);
    case RefusedStep(refusal) => RefusedAttends(s, refusal);
    case DelayEnds => ContinueAttends(s.(pump := NoPump), s.pump.attempt);
    case ReadStep(view, _, _) => ViewAttends(s, view);
    case ResizeAnswered(view) => ViewAttends(s.(resizes := s.resizes - 1), view);
    case _ =>
  }

  /** At every moment of the run, input that waits on a live, running terminal has the pump at work on it. */
  predicate AlwaysAttended(s: Session, steps: seq<Step>)
    requires CanRun(s, steps)
    decreases |steps|
  {
    Attended(s) && (steps != [] ==> AlwaysAttended(Apply(s, steps[0]), steps[1..]))
  }

  predicate StrandsIn(s: Session, steps: seq<Step>)
    requires CanRun(s, steps)
    decreases |steps|
  {
    steps != [] && (Strands(s, steps[0]) || StrandsIn(Apply(s, steps[0]), steps[1..]))
  }

  lemma {:induction false} AttendedIff(s: Session, steps: seq<Step>)
    requires Attended(s) && CanRun(s, steps)
    ensures AlwaysAttended(s, steps) <==> !StrandsIn(s, steps)
    decreases |steps|
  {
    if steps != [] {
      StaysAttendedIff(s, steps[0]);
      if !Strands(s, steps[0]) {
        AttendedIff(Apply(s, steps[0]), steps[1..]);
      } else if steps[1..] == [] {
      } else {
        assert !Attended(Apply(s, steps[0]));
      }
    }
  }

  /** Over every run of a session no input is ever left waiting without a pump, exactly when no step strands it. */
  lemma NothingStrandedIff(steps: seq<Step>)
    requires CanRun(NewSession(), steps)
    ensures AlwaysAttended(NewSession(), steps) <==> !StrandsIn(NewSession(), steps)
  {
    AttendedIff(NewSession(), steps);
  }

  /**
   * A run that strands input: a chunk is refused after the terminal stopped and put back, and then a resize answers
   * that the terminal runs.
   */
  lemma StrandedWhenRevived(bytes: seq<byte>)
    requires 1 <= |bytes| <= TERMINAL_INPUT_CHUNK_BYTES
    ensures var steps := StrandingRun(bytes);
      CanRun(NewSession(), steps) && !Attended(Run(NewSession(), steps)) && !DropsIn(NewSession(), steps)
  {
    var s2 := NewSession().(phase := Running, resizes := 1);
    SendWhole(s2, bytes);
    var s3 := s2.(accepted := bytes, pump := Sending(bytes, 0));
    PutBackAfterEnd(s3, bytes);
    RunCons(s2, SendStep(bytes), STRANDING_END, Run(s3, STRANDING_END));
    Resizing([SendStep(bytes)] + STRANDING_END);
  }

  /** The terminal runs, and a resize is sent. */
  lemma Resizing(more: seq<Step>)
    requires CanRun(NewSession().(phase := Running, resizes := 1), more)
    ensures var s2 := NewSession().(phase := Running, resizes := 1);
      var steps := [ReadStep(Some(Running), false, false)] + ([ResizeBegins] + more);
      && CanRun(NewSession(), steps) && Run(NewSession(), steps) == Run(s2, more)
      && (DropsIn(NewSession(), steps) <==> DropsIn(s2, more))
  {
    var s1 := NewSession().(phase := Running);
    var end := Run(s1.(resizes := 1), more);
    RunCons(s1, ResizeBegins, more, end);
    RunCons(NewSession(), ReadStep(Some(Running), false, false), [ResizeBegins] + more, end);
  }

  const STRANDING_END := [ReadStep(Some(Ended), false, false), RefusedStep(Retryable), DelayEnds,
    ResizeAnswered(Some(Running))]

  /** The terminal runs, a resize is sent, input is sent, and the terminal ends before the input is refused. */
  function StrandingRun(bytes: seq<byte>): seq<Step> {
    [ReadStep(Some(Running), false, false)] + ([ResizeBegins] + ([SendStep(bytes)] + STRANDING_END))
  }

  lemma PutBackAfterEnd(s3: Session, bytes: seq<byte>)
    requires bytes != [] && s3.pump == Sending(bytes, 0) && s3.queue == [] && s3.phase.Running? && !s3.disposed
      && s3.reader.InRead? && s3.resizes == 1
    ensures CanRun(s3, STRANDING_END) && !Attended(Run(s3, STRANDING_END)) && !DropsIn(s3, STRANDING_END)
  {
    var s4 := s3.(phase := Ended, reader := NoReader);
    assert [bytes] + [] == [bytes];
    var s5 := s4.(queue := [bytes], pump := Waiting(1));
    var s6 := s5.(pump := NoPump);
    var s7 := s6.(phase := Running, resizes := 0);
    RunCons(s6, ResizeAnswered(Some(Running)), [], s7);
    RunCons(s5, DelayEnds, [ResizeAnswered(Some(Running))], s7);
    RunCons(s4, RefusedStep(Retryable), [DelayEnds, ResizeAnswered(Some(Running))], s7);
    RunCons(s3, ReadStep(Some(Ended), false, false), [RefusedStep(Retryable), DelayEnds, ResizeAnswered(Some(Running))],
      s7);
    assert STRANDING_END
      == [ReadStep(Some(Ended), false, false)] + [RefusedStep(Retryable), DelayEnds, ResizeAnswered(Some(Running))];
  }

  /** A chunk that is sent at once, to a running terminal with nothing waiting. */
  lemma SendWhole(s: Session, bytes: seq<byte>)
    requires Live(s) && s.phase.Running? && s.queue == [] && s.pump.NoPump?
      && 1 <= |bytes| <= TERMINAL_INPUT_CHUNK_BYTES
    ensures Send(s, bytes) == (s.(accepted := s.accepted + bytes, pump := Sending(bytes, 0)), true)
  {
    assert [] + [bytes] == [bytes];
    assert [bytes][1..] == [] && bytes + [] == bytes;
    assert Take([], TERMINAL_INPUT_CHUNK_BYTES - |bytes|) == ([], []);
    assert Take([bytes], TERMINAL_INPUT_CHUNK_BYTES) == (bytes, []);
  }

  lemma RunCons(s: Session, step: Step, rest: seq<Step>, end: Session)
    requires Enabled(s, step) && CanRun(Apply(s, step), rest) && Run(Apply(s, step), rest) == end
    ensures CanRun(s, [step] + rest) && Run(s, [step] + rest) == end
    ensures DropsIn(s, [step] + rest) <==> Drops(s, step) || DropsIn(Apply(s, step), rest)
  {
    assert ([step] + rest)[1..] == rest;
  }

  // ---------------------------------------------------------------- the end of a session

  /** A disposed session takes nothing in and begins no request; one already in flight may still be delivered. */
  lemma DisposedIsQuiet(s: Session, step: Step)
    requires s.disposed && Enabled(s, step)
    ensures var next := Apply(s, step);
      next.disposed && next.accepted == s.accepted && (next.pump.Sending? ==> next.pump == s.pump)
  {}

  lemma {:induction false} NoInputAfterDispose(s: Session, steps: seq<Step>)
    requires s.disposed && CanRun(s, steps)
    ensures var end := Run(s, steps);
      && end.accepted == s.accepted && (end.pump.Sending? ==> end.pump == s.pump)
      && (end.delivered == s.delivered || end.delivered == s.delivered + InFlight(s.pump))
    decreases |steps|
  {
    if steps != [] {
      DisposedIsQuiet(s, steps[0]);
      NoInputAfterDispose(Apply(s, steps[0]), steps[1..]);
    }
  }

  // ---------------------------------------------------------------- what a loss does not end

  /** The response adopts a view of the terminal. */
  predicate Adopts(step: Step) {
    step.CloseAnswered? || ((step.DeliveredStep? || step.ReadStep? || step.ResizeAnswered?) && step.view.Some?)
  }

  /** Some response adopts a view before the session is disposed of. */
  predicate AdoptsFirst(steps: seq<Step>)
    decreases |steps|
  {
    steps != [] && !steps[0].DisposeStep? && (Adopts(steps[0]) || AdoptsFirst(steps[1..]))
  }

  /** The session is live at some moment of the run. */
  predicate EverLive(s: Session, steps: seq<Step>)
    requires CanRun(s, steps)
    decreases |steps|
  {
    Live(s) || (steps != [] && EverLive(Apply(s, steps[0]), steps[1..]))
  }

  lemma LostStep(s: Session, step: Step)
    requires s.phase.Lost? && !s.disposed && Enabled(s, step)
    ensures var next := Apply(s, step);
      && next.accepted == s.accepted && (next.pump.Sending? && !Adopts(step) ==> next.pump == s.pump)
      && (Live(next) <==> Adopts(step))
      && (!Adopts(step) ==> next.phase.Lost? && (next.disposed <==> step.DisposeStep?))
  {}

  lemma {:induction false} DisposedNeverLive(s: Session, steps: seq<Step>)
    requires s.disposed && CanRun(s, steps)
    ensures !EverLive(s, steps)
    decreases |steps|
  {
    if steps != [] {
      DisposedIsQuiet(s, steps[0]);
      DisposedNeverLive(Apply(s, steps[0]), steps[1..]);
    }
  }

  /**
   * A lost session is never live again, over any run, exactly when no response adopts a view, whatever that view says,
   * before it is disposed of. Until then it takes no input in and begins no request.
   */
  lemma {:induction false} LostForGoodIff(s: Session, steps: seq<Step>)
    requires s.phase.Lost? && !s.disposed && CanRun(s, steps)
    ensures EverLive(s, steps) <==> AdoptsFirst(steps)
    ensures !AdoptsFirst(steps)
      ==> Run(s, steps).accepted == s.accepted && (Run(s, steps).pump.Sending? ==> Run(s, steps).pump == s.pump)
    decreases |steps|
  {
    if steps != [] {
      var next := Apply(s, steps[0]);
      LostStep(s, steps[0]);
      if steps[0].DisposeStep? {
        DisposedNeverLive(next, steps[1..]);
        NoInputAfterDispose(next, steps[1..]);
      } else if !Adopts(steps[0]) {
        LostForGoodIff(next, steps[1..]);
      } else {
        assert Live(next);
      }
    }
  }

  /**
   * A response is on its way that can bring a lost session back to a running terminal: that of a resize or of an input
   * request; or that of a close, while the reader is in a delay after which it would read again.
   */
  predicate ResponseDue(s: Session) {
    s.resizes > 0 || s.pump.Sending? || (s.closes > 0 && s.reader.InDelay?)
  }

  /** No response can say that the terminal runs. */
  predicate DeadEnd(s: Session) {
    && !s.phase.Running? && s.resizes == 0 && !s.pump.Sending?
    && (s.reader.NoReader? || (s.phase.Lost? && (s.reader.InRead? || s.closes == 0)))
  }

  lemma StaysDead(s: Session, step: Step)
    requires DeadEnd(s) && Enabled(s, step)
    ensures DeadEnd(Apply(s, step)) && Apply(s, step).accepted == s.accepted
  {}

  lemma {:induction false} DeadTakesNothing(s: Session, steps: seq<Step>)
    requires DeadEnd(s) && CanRun(s, steps)
    ensures Run(s, steps).accepted == s.accepted
    decreases |steps|
  {
    if steps != [] {
      StaysDead(s, steps[0]);
      DeadTakesNothing(Apply(s, steps[0]), steps[1..]);
    }
  }

  ghost predicate CanTakeInput(s: Session) {
    exists steps | CanRun(s, steps) :: Run(s, steps).accepted != s.accepted
  }

  /** A running, live session takes input in. */
  lemma RunningTakesInput(s: Session)
    requires Live(s) && s.phase.Running?
    ensures CanRun(s, [SendStep([0])]) && Run(s, [SendStep([0])]).accepted == s.accepted + [0]
  {
    RunCons(s, SendStep([0]), [], Send(s, [0]).0);
  }

  lemma ResponseBringsBack(s: Session, response: Step)
    requires !s.disposed && Enabled(s, response)
    requires response == ResizeAnswered(Some(Running)) || response == DeliveredStep(Some(Running))
    ensures CanTakeInput(s)
  {
    var back := Apply(s, response);
    assert Live(back) && back.phase.Running? && back.accepted == s.accepted;
    RunningTakesInput(back);
    RunCons(s, response, [SendStep([0])], Run(back, [SendStep([0])]));
    assert CanRun(s, [response] + [SendStep([0])]);
  }

  lemma CloseBringsBack(s: Session)
    requires s.phase.Lost? && !s.disposed && s.closes > 0 && s.reader.InDelay?
    ensures CanTakeInput(s)
  {
    var closed := Apply(s, CloseAnswered);
    var again := Apply(closed, ReadDelayEnds);
    var back := Apply(again, ReadStep(Some(Running), false, false));
    assert Live(back) && back.phase.Running? && back.accepted == s.accepted;
    RunningTakesInput(back);
    var end := Run(back, [SendStep([0])]);
    RunCons(again, ReadStep(Some(Running), false, false), [SendStep([0])], end);
    RunCons(closed, ReadDelayEnds, [ReadStep(Some(Running), false, false)] + [SendStep([0])], end);
    var rest := [ReadDelayEnds] + ([ReadStep(Some(Running), false, false)] + [SendStep([0])]);
    RunCons(s, CloseAnswered, rest, end);
    assert CanRun(s, [CloseAnswered] + rest);
  }

  /**
   * A lost session that is not disposed of can take input in again exactly when, at the loss, such a response
   * is on its way.
   */
  lemma LostTakesInputIff(s: Session)
    requires s.phase.Lost? && !s.disposed
    ensures CanTakeInput(s) <==> ResponseDue(s)
  {
    if CanTakeInput(s) {
      var steps :| CanRun(s, steps) && Run(s, steps).accepted != s.accepted;
      if !ResponseDue(s) {
        DeadTakesNothing(s, steps);
      }
    }
    if s.resizes > 0 {
      ResponseBringsBack(s, ResizeAnswered(Some(Running)));
    } else if s.pump.Sending? {
      ResponseBringsBack(s, DeliveredStep(Some(Running)));
    } else if ResponseDue(s) {
      CloseBringsBack(s);
    }
  }

  /** The terminal runs, a resize is sent, and the reader finds the terminal gone. */
  function LosingRun(more: seq<Step>): seq<Step> {
    [ReadStep(Some(Running), false, false)] + ([ResizeBegins] + ([ReadGone] + more))
  }

  lemma Loses(more: seq<Step>)
    requires CanRun(NewSession().(phase := Lost, reader := NoReader, resizes := 1), more)
    ensures CanRun(NewSession(), LosingRun(more))
    ensures Run(NewSession(), LosingRun(more))
      == Run(NewSession().(phase := Lost, reader := NoReader, resizes := 1), more)
  {
    var end := Run(NewSession().(phase := Lost, reader := NoReader, resizes := 1), more);
    RunCons(NewSession().(phase := Running, resizes := 1), ReadGone, more, end);
    Resizing([ReadGone] + more);
  }

  /** A session that its reader lost is brought back by the answer to a resize, and takes input in. */
  lemma LostComesBack(bytes: seq<byte>)
    requires 1 <= |bytes| <= TERMINAL_INPUT_CHUNK_BYTES
    ensures var back := [ResizeAnswered(Some(Running)), SendStep(bytes)];
      && CanRun(NewSession(), LosingRun([])) && Run(NewSession(), LosingRun([])).phase.Lost?
      && CanRun(NewSession(), LosingRun(back)) && Run(NewSession(), LosingRun(back)).accepted == bytes
  {
    var lost := NewSession().(phase := Lost, reader := NoReader, resizes := 1);
    var running := lost.(phase := Running, resizes := 0);
    SendWhole(running, bytes);
    var end := running.(accepted := bytes, pump := Sending(bytes, 0));
    RunCons(running, SendStep(bytes), [], end);
    RunCons(lost, ResizeAnswered(Some(Running)), [SendStep(bytes)], end);
    Loses([]);
    Loses([ResizeAnswered(Some(Running)), SendStep(bytes)]);
  }
}
