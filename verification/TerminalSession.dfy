/**
 * The ordered input of a dashboard terminal (apps/api/dashboard/dashboard-terminal.js).
 *
 * One terminal; a request that is refused has delivered nothing. `accepted` is what `send` took in and
 * `delivered` what the requests that succeeded carried.
 */
module TerminalInput {
  import opened Wrappers

  type byte = bv8

  const TERMINAL_INPUT_CHUNK_BYTES := 16_384
  const INPUT_RETRY_LIMIT := 6

  // ---------------------------------------------------------------- the queue

  function Bytes(queue: seq<seq<byte>>): seq<byte> {
    if queue == [] then [] else queue[0] + Bytes(queue[1..])
  }

  /** Up to `limit` bytes from the front of the queue, splitting the last chunk, and what remains. */
  function Take(queue: seq<seq<byte>>, limit: nat): (seq<byte>, seq<seq<byte>>)
    decreases |queue|
  {
    if queue == [] || limit == 0 then ([], queue)
    else if |queue[0]| <= limit then
      var (chunk, rest) := Take(queue[1..], limit - |queue[0]|);
      (queue[0] + chunk, rest)
    else (queue[0][..limit], [queue[0][limit..]] + queue[1..])
  }

  /** Nothing is lost, reordered or added, and the chunk is as long as it can be. */
  lemma {:induction false} TakeSplits(queue: seq<seq<byte>>, limit: nat)
    ensures var (chunk, rest) := Take(queue, limit);
      && chunk + Bytes(rest) == Bytes(queue)
      && |chunk| == (if |Bytes(queue)| <= limit then |Bytes(queue)| else limit)
    decreases |queue|
  {
    if queue == [] || limit == 0 {
    } else if |queue[0]| <= limit {
      TakeSplits(queue[1..], limit - |queue[0]|);
      var (chunk, rest) := Take(queue[1..], limit - |queue[0]|);
      assert (queue[0] + chunk) + Bytes(rest) == queue[0] + (chunk + Bytes(rest));
    } else {
      var tail := [queue[0][limit..]] + queue[1..];
      assert tail[1..] == queue[1..];
      assert queue[0] == queue[0][..limit] + queue[0][limit..];
      assert queue[0][..limit] + (queue[0][limit..] + Bytes(queue[1..])) == queue[0] + Bytes(queue[1..]);
    }
  }

  /** The queue's entries are never empty. */
  predicate Solid(queue: seq<seq<byte>>) {
    forall i | 0 <= i < |queue| :: queue[i] != []
  }

  lemma {:induction false} TakeSolid(queue: seq<seq<byte>>, limit: nat)
    requires Solid(queue)
    ensures Solid(Take(queue, limit).1)
    ensures queue != [] && limit > 0 ==> Take(queue, limit).0 != []
    decreases |queue|
  {
    if queue != [] && 0 < limit && |queue[0]| <= limit {
      TakeSolid(queue[1..], limit - |queue[0]|);
    }
  }

  lemma {:induction false} BytesAppend(queue: seq<seq<byte>>, chunk: seq<byte>)
    ensures Bytes(queue + [chunk]) == Bytes(queue) + chunk
  {
    if queue == [] {
      assert [] + [chunk] == [chunk];
      assert Bytes([chunk]) == chunk + Bytes([]);
    } else {
      BytesAppend(queue[1..], chunk);
      assert (queue + [chunk])[1..] == queue[1..] + [chunk];
      assert queue[0] + (Bytes(queue[1..]) + chunk) == (queue[0] + Bytes(queue[1..])) + chunk;
    }
  }

  // ---------------------------------------------------------------- the session

  datatype Phase = Connecting | Running | Ended | Errored | Lost

  /** The one pump: not running, waiting for a request that carries `chunk`, or for a delay. */
  datatype Pump = NoPump | Sending(chunk: seq<byte>, attempt: nat) | Waiting(attempt: nat)

  /** The read loop: over, waiting for a page, or for a delay. */
  datatype Reader = NoReader | InRead | InDelay

  /** `resizes` and `closes` count the resize and close requests on their way. */
  datatype Session = Session(
    phase: Phase,
    disposed: bool,
    reader: Reader,
    resizes: nat,
    closes: nat,
    queue: seq<seq<byte>>,
    pump: Pump,
    accepted: seq<byte>,
    delivered: seq<byte>)

  /** A session attached to its terminal, about to read its output. */
  function NewSession(): Session {
    Session(Connecting, false, InRead, 0, 0, [], NoPump, [], [])
  }

  predicate Live(s: Session) {
    !s.disposed && !s.phase.Lost?
  }

  function InFlight(p: Pump): seq<byte> {
    if p.Sending? then p.chunk else []
  }

  /** Everything taken in that is delivered or may still be, in its order. */
  function Kept(s: Session): seq<byte> {
    s.delivered + InFlight(s.pump) + Bytes(s.queue)
  }

  function Clear(s: Session): Session {
    s.(queue := [])
  }

  /** A view of the terminal: one that does not run takes the unsent input with it. */
  function AdoptView(s: Session, view: Option<Phase>): Session {
    if view.None? then s
    else
      var next := s.(phase := view.value);
      if view.value.Running? then next else Clear(next)
  }

  /** The read controller's `abort`: a read under way ends the loop, a delay goes on. */
  function AbortRead(s: Session): Session {
    s.(reader := if s.reader.InRead? then NoReader else s.reader)
  }

  function Lose(s: Session): Session {
    AbortRead(Clear(s)).(phase := Lost)
  }

  /** The top of the pump's loop. */
  function Continue(s: Session, attempt: nat): Session {
    if s.queue != [] && Live(s) && s.phase.Running? then
      var (chunk, rest) := Take(s.queue, TERMINAL_INPUT_CHUNK_BYTES);
      s.(queue := rest, pump := Sending(chunk, attempt))
    else s.(pump := NoPump)
  }

  function Send(s: Session, bytes: seq<byte>): (Session, bool) {
    if !Live(s) || !s.phase.Running? || bytes == [] then (s, false)
    else
      var queued := s.(queue := s.queue + [bytes], accepted := s.accepted + bytes);
      (if s.pump.NoPump? then Continue(queued, 0) else queued, true)
  }

  function InputDelivered(s: Session, view: Option<Phase>): Session
    requires s.pump.Sending?
  {
    Continue(AdoptView(s.(delivered := s.delivered + s.pump.chunk, pump := NoPump), view), 0)
  }

  datatype Refusal = Gone | Retryable | Final

  function InputRefused(s: Session, refusal: Refusal): Session
    requires s.pump.Sending?
  {
    var chunk := s.pump.chunk;
    match refusal
    case Gone => Lose(s.(pump := NoPump))
    case Retryable =>
      if s.pump.attempt < INPUT_RETRY_LIMIT then s.(queue := [chunk] + s.queue, pump := Waiting(s.pump.attempt + 1))
      else Clear(s.(pump := NoPump))
    case Final => Clear(s.(pump := NoPump))
  }

  /** A page of output: the loop goes on while there is more, or while the terminal runs, perhaps after a pause. */
  function ReadPage(s: Session, view: Option<Phase>, more: bool, pause: bool): Session {
    var next := AdoptView(s, view);
    next.(reader :=
      if more then InRead
      else if !next.phase.Running? then NoReader
      else if pause then InDelay
      else InRead)
  }

  /** The runner answers a close with a view of a closed terminal. */
  function CloseDone(s: Session): Session {
    AbortRead(AdoptView(s, Some(Ended)))
  }

  /** What can happen. The answers to a resize or a close are adopted without a look at what happened since. */
  datatype Step =
    | SendStep(bytes: seq<byte>)
    | DeliveredStep(view: Option<Phase>)
    | RefusedStep(refusal: Refusal)
    | DelayEnds
    | ReadStep(view: Option<Phase>, more: bool, pause: bool)
    | ReadFails
    | ReadDelayEnds
    | ReadGone
    | ReadStops
    | ResizeBegins
    | ResizeAnswered(view: Option<Phase>)
    | ResizeFails(gone: bool)
    | CloseBegins
    | CloseAnswered
    | CloseFails(gone: bool)
    | DisposeStep

  /** What the runner reports of a terminal. */
  predicate IsView(view: Option<Phase>) {
    view.Some? ==> view.value.Running? || view.value.Ended?
  }

  predicate Enabled(s: Session, step: Step) {
    match step
    case DeliveredStep(view) => s.pump.Sending? && IsView(view)
    case RefusedStep(_) => s.pump.Sending?
    case DelayEnds => s.pump.Waiting?
    case ReadStep(view, _, _) => s.reader.InRead? && Live(s) && IsView(view)
    case ReadFails => s.reader.InRead? && Live(s)
    case ReadDelayEnds => s.reader.InDelay?
    case ReadGone => s.reader.InRead? && Live(s)
    case ReadStops => s.reader.InRead? && Live(s)
    case ResizeBegins => Live(s) && s.phase.Running?
    case ResizeAnswered(view) => s.resizes > 0 && IsView(view)
    case ResizeFails(_) => s.resizes > 0
    case CloseBegins => Live(s)
    case CloseAnswered => s.closes > 0
    case CloseFails(_) => s.closes > 0
    case _ => true
  }

  function IfGone(s: Session, gone: bool): Session {
    if gone then Lose(s) else s
  }

  function Apply(s: Session, step: Step): Session
    requires Enabled(s, step)
  {
    match step
    case SendStep(bytes) => Send(s, bytes).0
    case DeliveredStep(view) => InputDelivered(s, view)
    case RefusedStep(refusal) => InputRefused(s, refusal)
    case DelayEnds => Continue(s.(pump := NoPump), s.pump.attempt)
    case ReadStep(view, more, pause) => ReadPage(s, view, more, pause)
    case ReadFails => s.(reader := InDelay)
    case ReadDelayEnds => s.(reader := if Live(s) then InRead else NoReader)
    case ReadGone => Lose(s)
    case ReadStops => s.(phase := Errored, reader := NoReader)
    case ResizeBegins => s.(resizes := s.resizes + 1)
    case ResizeAnswered(view) => AdoptView(s.(resizes := s.resizes - 1), view)
    case ResizeFails(gone) => IfGone(s.(resizes := s.resizes - 1), gone)
    case CloseBegins => s.(closes := s.closes + 1)
    case CloseAnswered => CloseDone(s.(closes := s.closes - 1))
    case CloseFails(gone) => IfGone(s.(closes := s.closes - 1), gone)
    case DisposeStep => AbortRead(Clear(s.(disposed := true)))
  }

  predicate CanRun(s: Session, steps: seq<Step>)
    decreases |steps|
  {
    steps == [] || (Enabled(s, steps[0]) && CanRun(Apply(s, steps[0]), steps[1..]))
  }

  function Run(s: Session, steps: seq<Step>): Session
    requires CanRun(s, steps)
    decreases |steps|
  {
    if steps == [] then s else Run(Apply(s, steps[0]), steps[1..])
  }

  // ---------------------------------------------------------------- the object

  /** `chunk` is out of `all`, and the rest of what a chunk of `limit` bytes holds is still at the front of `queue`. */
  ghost predicate Taken(all: seq<seq<byte>>, limit: nat, chunk: seq<byte>, queue: seq<seq<byte>>)
    requires |chunk| <= limit
  {
    && chunk + Take(queue, limit - |chunk|).0 == Take(all, limit).0
    && Take(queue, limit - |chunk|).1 == Take(all, limit).1
  }

  lemma TakenWhole(all: seq<seq<byte>>, limit: nat, chunk: seq<byte>, queue: seq<seq<byte>>)
    requires |chunk| < limit && Taken(all, limit, chunk, queue) && queue != [] && |queue[0]| <= limit - |chunk|
    ensures Taken(all, limit, chunk + queue[0], queue[1..])
  {
    var more := Take(queue[1..], limit - |chunk| - |queue[0]|).0;
    assert (chunk + queue[0]) + more == chunk + (queue[0] + more);
  }

  lemma TakenPart(all: seq<seq<byte>>, limit: nat, chunk: seq<byte>, queue: seq<seq<byte>>)
    requires |chunk| < limit && Taken(all, limit, chunk, queue) && queue != [] && |queue[0]| > limit - |chunk|
    ensures var room := limit - |chunk|; Taken(all, limit, chunk + queue[0][..room], [queue[0][room..]] + queue[1..])
  {
    var room := limit - |chunk|;
    assert (chunk + queue[0][..room]) + [] == chunk + queue[0][..room];
  }

  lemma TakenAll(all: seq<seq<byte>>, limit: nat, chunk: seq<byte>, queue: seq<seq<byte>>)
    requires |chunk| <= limit && Taken(all, limit, chunk, queue) && (queue == [] || |chunk| == limit)
    ensures (chunk, queue) == Take(all, limit) && chunk + Bytes(queue) == Bytes(all)
    ensures |chunk| == if |Bytes(all)| <= limit then |Bytes(all)| else limit
  {
    TakeSplits(all, limit);
    assert chunk + [] == chunk;
  }

  class TerminalSession {
    var phase: Phase
    var disposed: bool
    var queue: seq<seq<byte>>
    var pump: Pump
    ghost var accepted: seq<byte>
    ghost var delivered: seq<byte>
    var reader: Reader
    ghost var resizes: nat
    ghost var closes: nat

    ghost function State(): Session
      reads this
    {
      Session(phase, disposed, reader, resizes, closes, queue, pump, accepted, delivered)
    }

    constructor ()
      ensures State() == NewSession()
    {
      phase, disposed, queue, pump := Connecting, false, [], NoPump;
      reader, resizes, closes := InRead, 0, 0;
      accepted, delivered := [], [];
    }

    method TakeInputChunk(limit: nat) returns (chunk: seq<byte>)
      modifies this`queue
      ensures (chunk, queue) == Take(old(queue), limit)
      ensures chunk + Bytes(queue) == Bytes(old(queue))
      ensures |chunk| == if |Bytes(old(queue))| <= limit then |Bytes(old(queue))| else limit
    {
      chunk := [];
      ghost var all := queue;
      while queue != [] && |chunk| < limit
        invariant |chunk| <= limit && Taken(all, limit, chunk, queue)
        decreases |queue|, limit - |chunk|
      {
        var room := limit - |chunk|;
        var next := queue[0];
        if |next| <= room {
          TakenWhole(all, limit, chunk, queue);
          queue := queue[1..];
          chunk := chunk + next;
        } else {
          TakenPart(all, limit, chunk, queue);
          queue := [next[room..]] + queue[1..];
          chunk := chunk + next[..room];
        }
      }
      TakenAll(all, limit, chunk, queue);
    }

    method SendBytes(bytes: seq<byte>) returns (ok: bool)
      modifies this
      ensures (State(), ok) == Send(old(State()), bytes)
    {
      if disposed || phase.Lost? || !phase.Running? || |bytes| == 0 {
        return false;
      }
      queue := queue + [bytes];
      accepted := accepted + bytes;
      if pump.NoPump? {
        NextChunk(0);
      }
      ok := true;
    }

    /** The top of the pump's loop, up to the request. */
    method NextChunk(attempt: nat)
      modifies this
      ensures State() == Continue(old(State()), attempt)
    {
      if queue == [] || disposed || phase.Lost? || !phase.Running? {
        pump := NoPump;
        return;
      }
      var chunk := TakeInputChunk(TERMINAL_INPUT_CHUNK_BYTES);
      pump := Sending(chunk, attempt);
    }

    method Delivered(view: Option<Phase>)
      requires pump.Sending?
      modifies this
      ensures State() == InputDelivered(old(State()), view)
    {
      delivered := delivered + pump.chunk;
      pump := NoPump;
      Adopt(view);
      NextChunk(0);
    }

    method Refused(refusal: Refusal)
      requires pump.Sending?
      modifies this
      ensures State() == InputRefused(old(State()), refusal)
    {
      var chunk, attempt := pump.chunk, pump.attempt;
      if refusal.Gone? {
        pump := NoPump;
        MarkLost();
        return;
      }
      if refusal.Retryable? && attempt < INPUT_RETRY_LIMIT {
        queue := [chunk] + queue;
        pump := Waiting(attempt + 1);
        return;
      }
      pump := NoPump;
      ClearQueue();
    }

    method DelayOver()
      requires pump.Waiting?
      modifies this
      ensures State() == Continue(old(State()).(pump := NoPump), old(pump.attempt))
    {
      var attempt := pump.attempt;
      pump := NoPump;
      NextChunk(attempt);
    }

    method Adopt(view: Option<Phase>)
      modifies this
      ensures State() == AdoptView(old(State()), view)
    {
      if view.None? {
        return;
      }
      phase := view.value;
      if !phase.Running? {
        ClearQueue();
      }
    }

    /** One page of the read loop. */
    method PageRead(view: Option<Phase>, more: bool, pause: bool)
      modifies this
      ensures State() == ReadPage(old(State()), view, more, pause)
    {
      Adopt(view);
      if more {
        reader := InRead;
      } else if !phase.Running? {
        reader := NoReader;
      } else {
        reader := if pause then InDelay else InRead;
      }
    }

    method CloseSettled()
      modifies this
      ensures State() == CloseDone(old(State()))
    {
      Adopt(Some(Ended));
      StopRead();
    }

    method StopRead()
      modifies this
      ensures State() == AbortRead(old(State()))
    {
      if reader.InRead? {
        reader := NoReader;
      }
    }

    method MarkLost()
      modifies this
      ensures State() == Lose(old(State()))
    {
      StopRead();
      ClearQueue();
      phase := Lost;
    }

    method Dispose()
      modifies this
      ensures State() == AbortRead(Clear(old(State()).(disposed := true)))
    {
      disposed := true;
      StopRead();
      ClearQueue();
    }

    method ClearQueue()
      modifies this
      ensures State() == Clear(old(State()))
    {
      queue := [];
    }
  }
}
