/**
 * Storage calls over a whole system: the client, a channel that loses, repeats, delays and reorders, and
 * the runner, which answers a repeated request id with its first result
 * (apps/agent-runtime-durable/src/remote-storage.ts).
 */
module StorageProtocol {
  import opened Wrappers
  import opened RemoteStorageModel

  datatype Effect = Effect(id: nat, request: Request)

  /**
   * The whole system. A record or response once sent stays deliverable for ever, any number of times
   * and in any order, and need never be delivered: the channel may lose, repeat, delay and reorder.
   * `table` holds the runner's first result for each id it has run, and `effects` what it has run.
   */
  datatype System = System(client: Client, responses: set<(nat, Response)>, table: map<nat, Response>,
          effects: seq<Effect>)

  datatype Event =
    | CallBegins(request: Request, cancellable: bool, aborted: bool)
    | CallResumes(id: nat)
    | CallWakes(id: nat)
    | TimerFires(id: nat, message: string)
    | SendFails(id: nat, attempt: nat, message: string)
    | AbortFires(id: nat)
    | ChannelShutsDown(reason: string)
    | CloseEnds(id: nat)
    | CloseRefused
    | RunnerRuns(id: nat, request: Request, response: Response)
    | RunnerRepeats(id: nat)
    | RunnerRefuses(id: nat, code: string, message: string, retryable: bool)
    | ResponseArrives(id: nat, response: Response)

  function Start(options: Options): System {
    System(Init(options), {}, map[], [])
  }

  predicate Enabled(s: System, e: Event) {
    match e
    case CallBegins(_, _, _) => true
    case CallResumes(id) => CanResume(s.client, id)
    case CallWakes(id) => CanWake(s.client, id)
    case TimerFires(id, _) => id in s.client.calls && id in s.client.pending
      && 1 <= s.client.pending[id] <= s.client.calls[id].attempt
    case SendFails(id, attempt, _) => id in s.client.calls && 1 <= attempt <= s.client.calls[id].attempt
    case AbortFires(id) => id in s.client.calls
    case ChannelShutsDown(_) => true
    case CloseRefused => Refusal(s.client, false).Some?
    case CloseEnds(id) =>
      id in s.client.calls && s.client.calls[id].request.operation == "close"
        && (s.client.calls[id].phase.Returned? || s.client.calls[id].phase.Threw?)
    case RunnerRuns(id, request, _) =>
      id !in s.table && exists x :: x in s.client.sent && x.id == id && x.request == request
    case RunnerRepeats(id) => id in s.table
    case RunnerRefuses(id, _, _, _) => exists x :: x in s.client.sent && x.id == id
    case ResponseArrives(id, response) => (id, response) in s.responses
  }

  function Step(s: System, e: Event): System
    requires Enabled(s, e)
  {
    match e
    case CallBegins(request, cancellable, aborted) => s.(client := Begin(s.client, request, cancellable, aborted))
    case CallResumes(id) => s.(client := Resume(s.client, id))
    case CallWakes(id) => s.(client := Wake(s.client, id))
    case TimerFires(id, message) =>
      s.(client := Settle(s.client, id, s.client.pending[id], Rejected(Transport(message))))
    case SendFails(id, attempt, message) => s.(client := Settle(s.client, id, attempt, Rejected(Transport(message))))
    case AbortFires(id) => s.(client := Abort(s.client, id))
    case ChannelShutsDown(reason) => s.(client := Shutdown(s.client, ShutDown(reason)))
    case CloseEnds(_) => s.(client := CloseEnded(s.client))
    case CloseRefused => s.(client := CloseEnded(s.client))
    case RunnerRuns(id, request, response) =>
      s.(table := s.table[id := response], effects := s.effects + [Effect(id, request)],
        responses := s.responses + {(id, response)})
    case RunnerRepeats(id) => s.(responses := s.responses + {(id, s.table[id])})
    case RunnerRefuses(id, code, message, retryable) =>
      s.(responses := s.responses + {(id, Refused(code, message, retryable))})
    case ResponseArrives(id, response) => s.(client := Accept(s.client, id, response))
  }

  predicate CanRun(s: System, events: seq<Event>)
    decreases |events|
  {
    events == [] || (Enabled(s, events[0]) && CanRun(Step(s, events[0]), events[1..]))
  }

  function Run(s: System, events: seq<Event>): System
    requires CanRun(s, events)
    decreases |events|
  {
    if events == [] then s else Run(Step(s, events[0]), events[1..])
  }

  function CountEffects(effects: seq<Effect>, id: nat): nat {
    if effects == [] then 0
    else CountEffects(effects[..|effects| - 1], id) + (if effects[|effects| - 1].id == id then 1 else 0)
  }

  /** The runner ran exactly the calls in its table, once each, with the request the call was made with. */
  ghost predicate RanOnce(s: System) {
    && s.table.Keys <= s.client.calls.Keys
    && (forall x | x in s.effects :: x.id in s.client.calls && x.request == s.client.calls[x.id].request)
    && (forall id :: CountEffects(s.effects, id) == if id in s.table then 1 else 0)
  }

  /** Every good response anywhere is the runner's first result for that id. */
  ghost predicate Genuine(s: System) {
    && (forall x | x in s.responses && x.1.Ok? :: x.0 in s.table && s.table[x.0] == x.1)
    && (forall id, k | id in s.client.calls && k in s.client.calls[id].outcomes
         && s.client.calls[id].outcomes[k].Resolved? ::
          (id, s.client.calls[id].outcomes[k].response) in s.responses)
    && (forall id | id in s.client.calls && s.client.calls[id].phase.Returned? ::
          id in s.table && s.table[id] == Ok(s.client.calls[id].phase.result))
  }

  ghost predicate SystemInv(s: System) {
    Valid(s.client) && Accounted(s.client) && RanOnce(s) && Genuine(s)
  }

  lemma CountEffectsAppend(effects: seq<Effect>, x: Effect, id: nat)
    ensures CountEffects(effects + [x], id) == CountEffects(effects, id) + (if x.id == id then 1 else 0)
  {
    assert (effects + [x])[..|effects|] == effects;
  }

  /** A step of the client alone keeps every call's request and invents no response. */
  ghost predicate ClientStep(s: System, d: Client) {
    && s.client.calls.Keys <= d.calls.Keys
    && (forall id | id in s.client.calls :: d.calls[id].request == s.client.calls[id].request)
    && (forall id, k | id in d.calls && k in d.calls[id].outcomes && d.calls[id].outcomes[k].Resolved? ::
          (id, d.calls[id].outcomes[k].response) in s.responses)
    && (forall id | id in d.calls && d.calls[id].phase.Returned? ::
          (id, Ok(d.calls[id].phase.result)) in s.responses
            || (id in s.client.calls && s.client.calls[id].phase == d.calls[id].phase))
  }

  lemma ClientStepKeeps(s: System, d: Client)
    requires RanOnce(s) && Genuine(s) && ClientStep(s, d)
    ensures RanOnce(s.(client := d)) && Genuine(s.(client := d))
  {}

  lemma SettleStep(s: System, id: nat, attempt: nat, outcome: Settlement)
    requires SystemInv(s) && id in s.client.calls && 1 <= attempt <= s.client.calls[id].attempt
    requires outcome.Resolved? ==> (id, outcome.response) in s.responses
    ensures SystemInv(s.(client := Settle(s.client, id, attempt, outcome)))
  {
    SettleValid(s.client, id, attempt, outcome);
    AccountedKept(s.client, Settle(s.client, id, attempt, outcome));
    SettleIsClientStep(s, id, attempt, outcome);
    ClientStepKeeps(s, Settle(s.client, id, attempt, outcome));
  }

  lemma SettleIsClientStep(s: System, id: nat, attempt: nat, outcome: Settlement)
    requires Genuine(s) && id in s.client.calls
    requires outcome.Resolved? ==> (id, outcome.response) in s.responses
    ensures ClientStep(s, Settle(s.client, id, attempt, outcome))
  {}

  lemma AcceptStep(s: System, id: nat, response: Response)
    requires SystemInv(s) && (id, response) in s.responses
    ensures SystemInv(s.(client := Accept(s.client, id, response)))
  {
    AcceptValid(s.client, id, response);
    if id in s.client.pending {
      assert ValidCall(s.client.options, s.client.calls[id], Entry(s.client, id));
      SettleStep(s, id, s.client.calls[id].attempt, Resolved(response));
    }
  }

  lemma AbortStep(s: System, id: nat)
    requires SystemInv(s) && id in s.client.calls
    ensures SystemInv(s.(client := Abort(s.client, id)))
  {
    var marked := s.client.(calls := s.client.calls[id := s.client.calls[id].(aborted := true)]);
    assert ValidCall(s.client.options, s.client.calls[id], Entry(s.client, id));
    MarkStep(s, id);
    SettleStep(s.(client := marked), id, s.client.calls[id].attempt, Rejected(Cancelled));
  }

  lemma MarkStep(s: System, id: nat)
    requires SystemInv(s) && id in s.client.calls
    ensures SystemInv(s.(client := s.client.(calls := s.client.calls[id := s.client.calls[id].(aborted := true)])))
  {
    var marked := s.client.(calls := s.client.calls[id := s.client.calls[id].(aborted := true)]);
    MarkValid(s.client, id);
    AccountedKept(s.client, marked);
    MarkIsClientStep(s, id);
    ClientStepKeeps(s, marked);
  }

  lemma MarkValid(c: Client, id: nat)
    requires Valid(c) && id in c.calls
    ensures Valid(c.(calls := c.calls[id := c.calls[id].(aborted := true)]))
  {
    assert ValidCall(c.options, c.calls[id], Entry(c, id));
  }

  lemma MarkIsClientStep(s: System, id: nat)
    requires Genuine(s) && id in s.client.calls
    ensures ClientStep(s, s.client.(calls := s.client.calls[id := s.client.calls[id].(aborted := true)]))
  {}

  lemma ShutdownStep(s: System, error: Failure)
    requires SystemInv(s)
    ensures SystemInv(s.(client := Shutdown(s.client, error)))
  {
    ShutdownValid(s.client, error);
    AccountedKept(s.client, Shutdown(s.client, error));
    ShutdownIsClientStep(s, error);
    ClientStepKeeps(s, Shutdown(s.client, error));
  }

  lemma ShutdownIsClientStep(s: System, error: Failure)
    requires Genuine(s)
    ensures ClientStep(s, Shutdown(s.client, error))
  {}

  lemma BeginStep(s: System, request: Request, cancellable: bool, aborted: bool)
    requires SystemInv(s)
    ensures SystemInv(s.(client := Begin(s.client, request, cancellable, aborted)))
  {
    BeginValid(s.client, request, cancellable, aborted);
    BeginAccounted(s.client, request, cancellable, aborted);
    ClientStepKeeps(s, Begin(s.client, request, cancellable, aborted));
  }

  lemma ResumeStep(s: System, id: nat)
    requires SystemInv(s) && CanResume(s.client, id)
    ensures SystemInv(s.(client := Resume(s.client, id)))
  {
    ResumeValid(s.client, id);
    AccountedKept(s.client, Resume(s.client, id));
    ResumeIsClientStep(s, id);
    ClientStepKeeps(s, Resume(s.client, id));
  }

  lemma ResumeIsClientStep(s: System, id: nat)
    requires Genuine(s) && CanResume(s.client, id)
    ensures ClientStep(s, Resume(s.client, id))
  {}

  lemma WakeStep(s: System, id: nat)
    requires SystemInv(s) && CanWake(s.client, id)
    ensures SystemInv(s.(client := Wake(s.client, id)))
  {
    WakeValid(s.client, id);
    WakeAccounted(s.client, id);
    ClientStepKeeps(s, Wake(s.client, id));
  }

  lemma RunnerStep(s: System, e: Event)
    requires SystemInv(s) && Enabled(s, e) && (e.RunnerRuns? || e.RunnerRepeats? || e.RunnerRefuses?)
    ensures SystemInv(Step(s, e))
  {
    RunnerRanOnce(s, e);
    RunnerIsGenuine(s, e);
  }

  lemma RunnerRanOnce(s: System, e: Event)
    requires Accounted(s.client) && RanOnce(s) && Enabled(s, e)
      && (e.RunnerRuns? || e.RunnerRepeats? || e.RunnerRefuses?)
    ensures RanOnce(Step(s, e))
  {
    if e.RunnerRuns? {
      forall id
        ensures CountEffects(Step(s, e).effects, id) == CountEffects(s.effects, id) + (if e.id == id then 1 else 0) {
        CountEffectsAppend(s.effects, Effect(e.id, e.request), id);
      }
    }
  }

  lemma RunnerIsGenuine(s: System, e: Event)
    requires Genuine(s) && Enabled(s, e) && (e.RunnerRuns? || e.RunnerRepeats? || e.RunnerRefuses?)
    ensures Genuine(Step(s, e))
  {}

  lemma StepInv(s: System, e: Event)
    requires SystemInv(s) && Enabled(s, e)
    ensures SystemInv(Step(s, e))
  {
    if e.CallBegins? || e.CallResumes? || e.CallWakes? {
      CallStep(s, e);
    } else if e.RunnerRuns? || e.RunnerRepeats? || e.RunnerRefuses? {
      RunnerStep(s, e);
    } else {
      OutsideStep(s, e);
    }
  }

  lemma CallStep(s: System, e: Event)
    requires SystemInv(s) && Enabled(s, e) && (e.CallBegins? || e.CallResumes? || e.CallWakes?)
    ensures SystemInv(Step(s, e))
  {
    match e
    case CallBegins(request, cancellable, aborted) => BeginStep(s, request, cancellable, aborted);
    case CallResumes(id) => ResumeStep(s, id);
    case CallWakes(id) => WakeStep(s, id);
  }

  lemma OutsideStep(s: System, e: Event)
    requires SystemInv(s) && Enabled(s, e)
    requires e.TimerFires? || e.SendFails? || e.AbortFires? || e.ChannelShutsDown? || e.CloseEnds? || e.CloseRefused?
      || e.ResponseArrives?
    ensures SystemInv(Step(s, e))
  {
    match e
    case TimerFires(id, message) => SettleStep(s, id, s.client.pending[id], Rejected(Transport(message)));
    case SendFails(id, attempt, message) => SettleStep(s, id, attempt, Rejected(Transport(message)));
    case AbortFires(id) => AbortStep(s, id);
    case ChannelShutsDown(reason) => ShutdownStep(s, ShutDown(reason));
    case CloseEnds(_) => CloseStep(s);
    case CloseRefused => CloseStep(s);
    case ResponseArrives(id, response) => AcceptStep(s, id, response);
  }

  lemma CloseStep(s: System)
    requires SystemInv(s)
    ensures SystemInv(s.(client := CloseEnded(s.client)))
  {
    AccountedKept(s.client, CloseEnded(s.client));
    ClientStepKeeps(s, CloseEnded(s.client));
  }

  lemma {:induction false} RunInv(s: System, events: seq<Event>)
    requires SystemInv(s) && CanRun(s, events)
    ensures SystemInv(Run(s, events))
    decreases |events|
  {
    if events != [] {
      StepInv(s, events[0]);
      RunInv(Step(s, events[0]), events[1..]);
    }
  }

  lemma StartInv(options: Options)
    requires options.maxAttempts >= 1
    ensures SystemInv(Start(options))
  {}

  lemma RunFromStart(options: Options, events: seq<Event>)
    requires options.maxAttempts >= 1 && CanRun(Start(options), events)
    ensures SystemInv(Run(Start(options), events)) && Run(Start(options), events).client.options == options
  {
    StartInv(options);
    RunInv(Start(options), events);
    OptionsStay(Start(options), events);
  }

  /**
   * Over every interleaving each call takes effect at most once, with its own request, and a call
   * that returned took effect exactly once and returned the runner's first result for it.
   */
  lemma ExactlyOnce(options: Options, events: seq<Event>)
    requires options.maxAttempts >= 1 && CanRun(Start(options), events)
    ensures var s := Run(Start(options), events);
      && (forall id :: CountEffects(s.effects, id) <= 1)
      && (forall x | x in s.effects :: x.id in s.client.calls && x.request == s.client.calls[x.id].request)
      && (forall id | id in s.client.calls && s.client.calls[id].phase.Returned? ::
            CountEffects(s.effects, id) == 1 && id in s.table && s.table[id] == Ok(s.client.calls[id].phase.result))
  {
    RunFromStart(options, events);
  }

  // ---------------------------------------------------------------- how long it sleeps

  function Power(n: nat): nat {
    if n == 0 then 1 else 2 * Power(n - 1)
  }

  /** A delay that doubles with every attempt, until the cap: the smaller of the two. */
  predicate IsDelay(options: Options, attempt: nat, ms: nat)
    requires attempt >= 1
  {
    var doubled := options.baseBackoffMs * Power(attempt - 1);
    ms <= doubled && ms <= options.maxBackoffMs && (ms == doubled || ms == options.maxBackoffMs)
  }

  lemma {:induction false} DoubledIsPower(ms: nat, times: nat)
    ensures Doubled(ms, times) == ms * Power(times)
  {
    if times > 0 {
      DoubledIsPower(ms, times - 1);
      Twice(ms, Power(times - 1));
    }
  }

  lemma Twice(a: nat, b: nat)
    ensures 2 * (a * b) == a * (2 * b)
  {}

  lemma BackoffIsDelay(options: Options, attempt: nat)
    requires attempt >= 1
    ensures IsDelay(options, attempt, BackoffMs(options, attempt))
  {
    DoubledIsPower(options.baseBackoffMs, attempt - 1);
  }

  /** The delays of `attempts` attempts together, and their exact sum while they stay below the cap. */
  predicate AreDelays(options: Options, attempts: nat, total: nat) {
    && total <= attempts * options.maxBackoffMs
    && total <= options.baseBackoffMs * (Power(attempts) - 1)
    && (attempts >= 1 && options.baseBackoffMs * Power(attempts - 1) <= options.maxBackoffMs ==>
          total == options.baseBackoffMs * (Power(attempts) - 1))
  }

  lemma PowerStep(base: nat, n: nat)
    ensures base * (Power(n + 1) - 1) == base * (Power(n) - 1) + base * Power(n)
    ensures base * Power(n) <= base * Power(n + 1)
  {
    assert base * (Power(n + 1) - 1) == base * ((Power(n) - 1) + Power(n));
    assert base * Power(n + 1) == base * Power(n) + base * Power(n);
  }

  lemma {:induction false} SumIsBounded(options: Options, attempts: nat)
    ensures AreDelays(options, attempts, SumBackoff(options, attempts))
  {
    if attempts > 0 {
      SumIsBounded(options, attempts - 1);
      BackoffIsDelay(options, attempts);
      PowerStep(options.baseBackoffMs, attempts - 1);
      if attempts > 1 {
        PowerStep(options.baseBackoffMs, attempts - 2);
      }
      assert attempts * options.maxBackoffMs == (attempts - 1) * options.maxBackoffMs + options.maxBackoffMs;
    }
  }

  /**
   * Over every interleaving a call that sleeps after attempt k does so for base * 2^(k - 1) milliseconds or for the
   * longest delay allowed, whichever is shorter, and what it has slept before is the sum of such delays.
   */
  lemma SleepsAsScheduled(options: Options, events: seq<Event>, id: nat)
    requires options.maxAttempts >= 1 && CanRun(Start(options), events)
    requires id in Run(Start(options), events).client.calls
    ensures var call := Run(Start(options), events).client.calls[id];
      && call.attempt >= 1 && AreDelays(options, call.attempt - 1, call.waited)
      && (call.phase.Backoff? ==> IsDelay(options, call.attempt, call.phase.ms))
  {
    RunFromStart(options, events);
    var c := Run(Start(options), events).client;
    var call := c.calls[id];
    assert ValidCall(c.options, call, Entry(c, id));
    assert AccountedCall(c.options, call, CountSends(c.sent, id));
    SumIsBounded(options, call.attempt - 1);
    BackoffIsDelay(options, call.attempt);
  }

  /**
   * Over every interleaving no call sends more than `maxAttempts` records or sleeps longer than the schedule
   * allows.
   */
  lemma BoundedEffort(options: Options, events: seq<Event>, id: nat)
    requires options.maxAttempts >= 1 && CanRun(Start(options), events)
    requires id in Run(Start(options), events).client.calls
    ensures var c := Run(Start(options), events).client;
      && CountSends(c.sent, id) <= options.maxAttempts
      && c.calls[id].waited <= SumBackoff(options, options.maxAttempts - 1)
      && c.calls[id].waited <= (options.maxAttempts - 1) * options.maxBackoffMs
      && c.calls[id].waited <= options.baseBackoffMs * (Power(options.maxAttempts - 1) - 1)
  {
    RunFromStart(options, events);
    SystemEffort(Run(Start(options), events), id);
  }

  lemma WaitedIsBounded(options: Options, waited: nat)
    requires options.maxAttempts >= 1 && waited <= SumBackoff(options, options.maxAttempts - 1)
    ensures waited <= (options.maxAttempts - 1) * options.maxBackoffMs
    ensures waited <= options.baseBackoffMs * (Power(options.maxAttempts - 1) - 1)
  {
    SumIsBounded(options, options.maxAttempts - 1);
  }

  lemma SystemEffort(s: System, id: nat)
    requires SystemInv(s) && id in s.client.calls
    ensures CountSends(s.client.sent, id) <= s.client.options.maxAttempts
    ensures s.client.calls[id].waited <= SumBackoff(s.client.options, s.client.options.maxAttempts - 1)
    ensures var options := s.client.options;
      && s.client.calls[id].waited <= (options.maxAttempts - 1) * options.maxBackoffMs
      && s.client.calls[id].waited <= options.baseBackoffMs * (Power(options.maxAttempts - 1) - 1)
  {
    CallEffort(s.client, id);
    WaitedIsBounded(s.client.options, s.client.calls[id].waited);
  }

  lemma CallEffort(c: Client, id: nat)
    requires Valid(c) && Accounted(c) && id in c.calls
    ensures CountSends(c.sent, id) <= c.options.maxAttempts
      && c.calls[id].waited <= SumBackoff(c.options, c.options.maxAttempts - 1)
  {
    assert ValidCall(c.options, c.calls[id], Entry(c, id));
    assert AccountedCall(c.options, c.calls[id], CountSends(c.sent, id));
    SumBackoffMonotone(c.options, c.calls[id].attempt - 1, c.options.maxAttempts - 1);
  }

  lemma {:induction false} OptionsStay(s: System, events: seq<Event>)
    requires CanRun(s, events)
    ensures Run(s, events).client.options == s.client.options
    decreases |events|
  {
    if events != [] {
      OptionsStay(Step(s, events[0]), events[1..]);
    }
  }

  lemma SumBackoffMonotone(options: Options, m: nat, n: nat)
    requires m <= n
    ensures SumBackoff(options, m) <= SumBackoff(options, n)
  {}

  /** After a shutdown no call ever begins again: every later record belongs to a call that already was. */
  lemma {:induction false} NoNewCallAfterShutdown(s: System, events: seq<Event>)
    requires SystemInv(s) && s.client.failure.Some? && CanRun(s, events)
    ensures Run(s, events).client.calls.Keys == s.client.calls.Keys
    ensures forall x | x in Run(s, events).client.sent :: x.id in s.client.calls
    decreases |events|
  {
    if events != [] {
      StepInv(s, events[0]);
      FailureStays(s, events[0]);
      NoNewCallAfterShutdown(Step(s, events[0]), events[1..]);
    }
  }

  /** So no call begins in any run after the channel shuts down; the first shutdown stays the reason. */
  lemma NoNewCallOnceShutDown(s: System, reason: string, events: seq<Event>)
    requires SystemInv(s) && CanRun(Step(s, ChannelShutsDown(reason)), events)
    ensures var end := Run(Step(s, ChannelShutsDown(reason)), events).client;
      && end.calls.Keys == s.client.calls.Keys
      && end.failure == if s.client.failure.Some? then s.client.failure else Some(ShutDown(reason))
  {
    StepInv(s, ChannelShutsDown(reason));
    NoNewCallAfterShutdown(Step(s, ChannelShutsDown(reason)), events);
    RunFailureStays(Step(s, ChannelShutsDown(reason)), events);
  }

  lemma {:induction false} RunFailureStays(s: System, events: seq<Event>)
    requires s.client.failure.Some? && CanRun(s, events)
    ensures Run(s, events).client.failure == s.client.failure
    decreases |events|
  {
    if events != [] {
      FailureStays(s, events[0]);
      RunFailureStays(Step(s, events[0]), events[1..]);
    }
  }

  lemma FailureStays(s: System, e: Event)
    requires s.client.failure.Some? && Enabled(s, e)
    ensures Step(s, e).client.failure == s.client.failure
    ensures Step(s, e).client.calls.Keys == s.client.calls.Keys
  {}

  // ---------------------------------------------------------------- what begins, returns and stays

  lemma ClosedStays(s: System, e: Event)
    requires s.client.closed && Enabled(s, e)
    ensures Step(s, e).client.closed && Step(s, e).client.calls.Keys == s.client.calls.Keys
  {}

  /** Once the storage's own `close` has ended or was refused, no call ever begins again. */
  lemma {:induction false} NoNewCallAfterClose(s: System, e: Event, events: seq<Event>)
    requires Enabled(s, e) && (s.client.closed || e.CloseEnds? || e.CloseRefused?) && CanRun(Step(s, e), events)
    ensures var end := Run(Step(s, e), events).client; end.closed && end.calls.Keys == s.client.calls.Keys
    decreases |events|
  {
    if s.client.closed {
      ClosedStays(s, e);
    }
    if events != [] {
      NoNewCallAfterClose(Step(s, e), events[0], events[1..]);
    }
  }

  /** A call begins exactly when the storage is neither closed nor shut down and its own signal has not fired. */
  lemma BeginsIff(s: System, request: Request, cancellable: bool, aborted: bool)
    requires SystemInv(s)
    ensures var d := Step(s, CallBegins(request, cancellable, aborted)).client; var id := s.client.nextId + 1;
      && id !in s.client.calls
      && (id in d.calls <==> !s.client.closed && s.client.failure.None? && !aborted)
      && (id in d.calls ==>
           && d.calls == s.client.calls[id := Call(request, cancellable, 1, Awaiting, map[], 0, false)]
           && d.sent == s.client.sent + [Send(id, 1, request)])
      && (id !in d.calls ==> d == s.client)
  {}

  /** The result that arrives for a call while it waits is what the call returns. */
  lemma ArrivedIsReturned(s: System, id: nat, result: string)
    requires SystemInv(s) && id in s.client.pending && (id, Ok(result)) in s.responses
    ensures CanRun(s, [ResponseArrives(id, Ok(result)), CallResumes(id)])
    ensures var end := Run(s, [ResponseArrives(id, Ok(result)), CallResumes(id)]).client;
      id in end.calls && end.calls[id].phase == Returned(result)
  {
    assert ValidCall(s.client.options, s.client.calls[id], Entry(s.client, id));
    AcceptValid(s.client, id, Ok(result));
    var t := Step(s, ResponseArrives(id, Ok(result)));
    var rest := [ResponseArrives(id, Ok(result)), CallResumes(id)][1..];
    assert rest == [CallResumes(id)] && rest[1..] == [];
    assert Run(Step(t, CallResumes(id)), []) == Step(t, CallResumes(id));
  }

  /** The recorded error is of the last call that threw a refusal by the runner: no other step touches it. */
  lemma LastErrorIff(options: Options, events: seq<Event>, e: Event)
    requires options.maxAttempts >= 1 && CanRun(Start(options), events) && Enabled(Run(Start(options), events), e)
    ensures var c := Run(Start(options), events).client; var d := Step(Run(Start(options), events), e).client;
      if e.CallResumes? && d.calls[e.id].phase.Threw? && d.calls[e.id].phase.failure.Rpc?
      then d.lastError == Some(d.calls[e.id].phase.failure)
      else d.lastError == c.lastError
  {
    RunFromStart(options, events);
    RunExplained(Start(options), events);
    var s := Run(Start(options), events);
    StepInv(s, e);
    if e.CallResumes? {
      assert ExplainedCall(options, s.client.failure.Some?, s.client.calls[e.id]);
    }
  }

  // ---------------------------------------------------------------- what a shutdown does

  /** Shutting down drops every pending entry, and every waiting call then throws the error it was shut down with. */
  lemma ShutdownRejectsAll(c: Client, reason: string)
    requires Valid(c)
    ensures var d := Shutdown(c, ShutDown(reason));
      && d.pending == map[]
      && (forall id | id in c.pending :: CanResume(d, id) && Resume(d, id).calls[id].phase == Threw(ShutDown(reason)))
  {
    forall id | id in c.pending ensures ValidCall(c.options, c.calls[id], Entry(c, id)) {}
  }

  // ---------------------------------------------------------------- who still sends

  /** The call is asleep, or awake with an unread outcome that it will retry. */
  predicate Retries(options: Options, shut: bool, call: Call) {
    || call.phase.Backoff?
    || (call.phase.Awaiting? && call.attempt in call.outcomes && call.attempt < options.maxAttempts
        && IsRetried(shut, call.outcomes[call.attempt]))
  }

  /** A refusal says itself whether it is retried; a failed transport is, unless the channel is gone. */
  predicate IsRetried(shut: bool, outcome: Settlement) {
    match outcome
    case Resolved(response) => response.Refused? && response.retryable
    case Rejected(failure) => failure.Transport? && !shut
  }

  predicate MaySend(c: Client, shut: bool, id: nat) {
    id in c.calls && Retries(c.options, shut, c.calls[id])
  }

  /** Every call that still retries can get to its next record at once. */
  lemma RetryingSends(s: System, id: nat) returns (events: seq<Event>)
    requires Valid(s.client) && MaySend(s.client, s.client.failure.Some?, id)
    ensures CanRun(s, events)
    ensures Run(s, events).client.sent
      == s.client.sent + [Send(id, s.client.calls[id].attempt + 1, s.client.calls[id].request)]
  {
    assert ValidCall(s.client.options, s.client.calls[id], Entry(s.client, id));
    if s.client.calls[id].phase.Backoff? {
      events := [CallWakes(id)];
      RunCons(s, CallWakes(id), []);
    } else {
      var asleep := Step(s, CallResumes(id));
      RunCons(asleep, CallWakes(id), []);
      RunCons(s, CallResumes(id), [CallWakes(id)]);
      events := [CallResumes(id)] + [CallWakes(id)];
    }
  }

  lemma RunCons(s: System, e: Event, rest: seq<Event>)
    requires Enabled(s, e) && CanRun(Step(s, e), rest)
    ensures CanRun(s, [e] + rest) && Run(s, [e] + rest) == Run(Step(s, e), rest)
  {
    assert ([e] + rest)[1..] == rest;
  }

  /** The channel is gone, nothing waits for a response, and no call retries. */
  ghost predicate Quiet(c: Client) {
    c.failure.Some? && c.pending == map[] && forall id :: !MaySend(c, true, id)
  }

  lemma QuietStep(s: System, e: Event)
    requires Quiet(s.client) && Enabled(s, e)
    ensures Quiet(Step(s, e).client) && Step(s, e).client.sent == s.client.sent
  {
    match e
    case CallWakes(id) => QuietNeverWakes(s.client, id);
    case CallResumes(id) => QuietResumes(s.client, id);
    case SendFails(id, attempt, message) => QuietSettles(s.client, id, attempt, Transport(message));
    case AbortFires(id) => QuietAborts(s.client, id);
    case ChannelShutsDown(reason) => QuietStays(s.client, Shutdown(s.client, ShutDown(reason)));
    case CloseEnds(_) => QuietStays(s.client, CloseEnded(s.client));
    case CloseRefused => QuietStays(s.client, CloseEnded(s.client));
    case _ =>
  }

  lemma QuietStays(c: Client, d: Client)
    requires Quiet(c) && d.calls == c.calls && d.options == c.options && d.pending == c.pending
      && d.failure == c.failure
    ensures Quiet(d)
  {
    forall id ensures !MaySend(d, true, id) {
      assert !MaySend(c, true, id);
    }
  }

  lemma QuietNeverWakes(c: Client, id: nat)
    requires Quiet(c)
    ensures !CanWake(c, id)
  {
    assert !MaySend(c, true, id);
  }

  lemma QuietResumes(c: Client, id: nat)
    requires Quiet(c) && CanResume(c, id)
    ensures Quiet(Resume(c, id))
  {
    assert !MaySend(c, true, id);
    forall other ensures !MaySend(Resume(c, id), true, other) {
      assert !MaySend(c, true, other);
    }
  }

  lemma QuietSettles(c: Client, id: nat, attempt: nat, failure: Failure)
    requires Quiet(c) && id in c.calls
    ensures Quiet(Settle(c, id, attempt, Rejected(failure)))
  {
    forall other ensures !MaySend(Settle(c, id, attempt, Rejected(failure)), true, other) {
      assert !MaySend(c, true, other);
    }
  }

  lemma QuietAborts(c: Client, id: nat)
    requires Quiet(c) && id in c.calls
    ensures Quiet(Abort(c, id))
  {
    var marked := c.(calls := c.calls[id := c.calls[id].(aborted := true)]);
    forall other ensures !MaySend(marked, true, other) {
      assert !MaySend(c, true, other);
    }
    QuietSettles(marked, id, c.calls[id].attempt, Cancelled);
  }

  lemma {:induction false} QuietRun(s: System, events: seq<Event>)
    requires Quiet(s.client) && CanRun(s, events)
    ensures Run(s, events).client.sent == s.client.sent
    decreases |events|
  {
    if events != [] {
      QuietStep(s, events[0]);
      QuietRun(Step(s, events[0]), events[1..]);
    }
  }

  lemma ShutdownKeepsRetries(c: Client, reason: string, id: nat)
    requires Valid(c)
    ensures MaySend(Shutdown(c, ShutDown(reason)), true, id) <==> MaySend(c, true, id)
  {
    if id in c.calls {
      assert ValidCall(c.options, c.calls[id], Entry(c, id));
    }
  }

  /** Some run goes on to send a record. */
  ghost predicate SendsLater(s: System) {
    exists events | CanRun(s, events) :: Run(s, events).client.sent != s.client.sent
  }

  /**
   * After a shutdown a record is sent in some run exactly when, at the shutdown, some call is asleep in its backoff or
   * holds an unread retryable refusal with attempts left. Without one, nothing is sent in any run.
   */
  lemma SendsAfterShutdownIff(s: System, reason: string)
    requires SystemInv(s)
    ensures SendsLater(Step(s, ChannelShutsDown(reason))) <==> exists id :: MaySend(s.client, true, id)
  {
    var d := Step(s, ChannelShutsDown(reason));
    StepInv(s, ChannelShutsDown(reason));
    forall id ensures MaySend(d.client, true, id) <==> MaySend(s.client, true, id) {
      ShutdownKeepsRetries(s.client, reason, id);
    }
    if id :| MaySend(s.client, true, id) {
      var events := RetryingSends(d, id);
    } else {
      forall events | CanRun(d, events) ensures Run(d, events).client.sent == d.client.sent {
        QuietRun(d, events);
      }
    }
  }

  /**
   * Both ways to send after a shutdown happen: a call that timed out and sleeps, and one that was refused and
   * has not read it.
   */
  lemma SendAfterShutdownRuns(options: Options, request: Request, message: string, code: string, reason: string)
    requires options.maxAttempts >= 2
    ensures var asleep := [CallBegins(request, false, false), TimerFires(1, message), CallResumes(1),
      ChannelShutsDown(reason)];
      && CanRun(Start(options), asleep) && SendsLater(Run(Start(options), asleep))
    ensures var refused := Refused(code, message, true);
      var unread := [CallBegins(request, false, false), RunnerRefuses(1, code, message, true),
        ResponseArrives(1, refused), ChannelShutsDown(reason)];
      && CanRun(Start(options), unread) && SendsLater(Run(Start(options), unread))
  {
    StartInv(options);
    AsleepRun(options, request, message, reason);
    UnreadRun(options, request, message, code, reason);
  }

  lemma ShutdownLast(s: System, events: seq<Event>, reason: string, id: nat)
    requires SystemInv(s) && CanRun(s, events) && MaySend(Run(s, events).client, true, id)
    ensures CanRun(s, events + [ChannelShutsDown(reason)]) && SendsLater(Run(s, events + [ChannelShutsDown(reason)]))
  {
    RunInv(s, events);
    RunSnoc(s, events, ChannelShutsDown(reason));
    SendsAfterShutdownIff(Run(s, events), reason);
  }

  lemma {:induction false} RunSnoc(s: System, events: seq<Event>, e: Event)
    requires CanRun(s, events) && Enabled(Run(s, events), e)
    ensures CanRun(s, events + [e]) && Run(s, events + [e]) == Step(Run(s, events), e)
    decreases |events|
  {
    if events == [] {
      RunCons(s, e, []);
      assert [] + [e] == [e] + [];
    } else {
      RunSnoc(Step(s, events[0]), events[1..], e);
      RunCons(s, events[0], events[1..] + [e]);
      assert events + [e] == [events[0]] + (events[1..] + [e]);
    }
  }

  lemma AsleepRun(options: Options, request: Request, message: string, reason: string)
    requires options.maxAttempts >= 2
    ensures var asleep := [CallBegins(request, false, false), TimerFires(1, message), CallResumes(1),
      ChannelShutsDown(reason)];
      CanRun(Start(options), asleep) && SendsLater(Run(Start(options), asleep))
  {
    StartInv(options);
    var s0 := Start(options);
    var s1 := Step(s0, CallBegins(request, false, false));
    var s2 := Step(s1, TimerFires(1, message));
    RunCons(s2, CallResumes(1), []);
    RunCons(s1, TimerFires(1, message), [CallResumes(1)]);
    RunCons(s0, CallBegins(request, false, false), [TimerFires(1, message), CallResumes(1)]);
    var events := [CallBegins(request, false, false), TimerFires(1, message), CallResumes(1)];
    assert events == [CallBegins(request, false, false)] + [TimerFires(1, message), CallResumes(1)];
    ShutdownLast(s0, events, reason, 1);
    assert events + [ChannelShutsDown(reason)]
      == [CallBegins(request, false, false), TimerFires(1, message), CallResumes(1), ChannelShutsDown(reason)];
  }

  lemma UnreadRun(options: Options, request: Request, message: string, code: string, reason: string)
    requires options.maxAttempts >= 2
    ensures var refused := Refused(code, message, true);
      var unread := [CallBegins(request, false, false), RunnerRefuses(1, code, message, true),
        ResponseArrives(1, refused), ChannelShutsDown(reason)];
      && CanRun(Start(options), unread) && SendsLater(Run(Start(options), unread))
  {
    StartInv(options);
    var refused := Refused(code, message, true);
    RefusedIsUnread(options, request, message, code);
    var events := [CallBegins(request, false, false), RunnerRefuses(1, code, message, true),
      ResponseArrives(1, refused)];
    ShutdownLast(Start(options), events, reason, 1);
    assert events + [ChannelShutsDown(reason)] ==
      [CallBegins(request, false, false), RunnerRefuses(1, code, message, true), ResponseArrives(1, refused),
        ChannelShutsDown(reason)];
  }

  lemma RefusedIsUnread(options: Options, request: Request, message: string, code: string)
    requires options.maxAttempts >= 2
    ensures var events := [CallBegins(request, false, false), RunnerRefuses(1, code, message, true),
      ResponseArrives(1, Refused(code, message, true))];
      CanRun(Start(options), events) && MaySend(Run(Start(options), events).client, true, 1)
  {
    var refused := Refused(code, message, true);
    var s0 := Start(options);
    var s1 := Step(s0, CallBegins(request, false, false));
    assert Send(1, 1, request) in s1.client.sent;
    var s2 := Step(s1, RunnerRefuses(1, code, message, true));
    RunCons(s2, ResponseArrives(1, refused), []);
    RunCons(s1, RunnerRefuses(1, code, message, true), [ResponseArrives(1, refused)]);
    RunCons(s0, CallBegins(request, false, false),
      [RunnerRefuses(1, code, message, true), ResponseArrives(1, refused)]);
    assert [CallBegins(request, false, false), RunnerRefuses(1, code, message, true), ResponseArrives(1, refused)]
      == [CallBegins(request, false, false)] + [RunnerRefuses(1, code, message, true), ResponseArrives(1, refused)];
  }

  /** The call is over, or about to be. */
  predicate Spent(c: Client, id: nat) {
    id in c.calls && !Retries(c.options, c.failure.Some?, c.calls[id])
      && (c.calls[id].phase.Awaiting? ==> c.calls[id].attempt in c.calls[id].outcomes)
  }

  /** The client step leaves the call's records as they are, and lets it not retry again. */
  ghost predicate KeepsSpent(c: Client, d: Client, id: nat) {
    Spent(c, id) ==> Spent(d, id) && CountSends(d.sent, id) == CountSends(c.sent, id)
  }

  lemma SettleKeepsSpent(c: Client, id: nat, attempt: nat, outcome: Settlement, other: nat)
    requires id in c.calls
    ensures KeepsSpent(c, Settle(c, id, attempt, outcome), other)
  {}

  lemma AbortKeepsSpent(c: Client, id: nat, other: nat)
    requires id in c.calls
    ensures KeepsSpent(c, Abort(c, id), other)
  {}

  lemma SendKeepsSpent(c: Client, id: nat, call: Call, other: nat)
    requires other != id
    ensures KeepsSpent(c, StartAttempt(c, id, call), other)
  {
    SendCounts(c, id, call, other);
    if other in c.calls {
      SameCallSpent(c, StartAttempt(c, id, call), other);
    }
  }

  lemma SendCounts(c: Client, id: nat, call: Call, other: nat)
    requires other != id
    ensures CountSends(StartAttempt(c, id, call).sent, other) == CountSends(c.sent, other)
  {
    CountAppend(c.sent, Send(id, call.attempt, call.request), other);
  }

  lemma SameCallSpent(c: Client, d: Client, id: nat)
    requires d.options == c.options && d.failure == c.failure
    requires id in c.calls && id in d.calls && d.calls[id] == c.calls[id]
    ensures Spent(c, id) ==> Spent(d, id)
  {}

  lemma BeginKeepsSpent(c: Client, request: Request, cancellable: bool, aborted: bool, other: nat)
    requires Valid(c)
    ensures KeepsSpent(c, Begin(c, request, cancellable, aborted), other)
  {
    if Refusal(c, aborted).None? && other in c.calls {
      SendKeepsSpent(c.(nextId := c.nextId + 1), c.nextId + 1, NewCall(request, cancellable), other);
    }
  }

  lemma WakeKeepsSpent(c: Client, id: nat, other: nat)
    requires CanWake(c, id)
    ensures KeepsSpent(c, Wake(c, id), other)
  {
    if other != id {
      SendKeepsSpent(c, id, NextAttempt(c.calls[id]), other);
    }
  }

  lemma ResumeKeepsSpent(c: Client, id: nat, other: nat)
    requires CanResume(c, id)
    ensures KeepsSpent(c, Resume(c, id), other)
  {}

  lemma StepKeepsSpent(s: System, e: Event, id: nat)
    requires Valid(s.client) && Enabled(s, e)
    ensures KeepsSpent(s.client, Step(s, e).client, id)
  {
    match e
    case CallBegins(request, cancellable, aborted) => BeginKeepsSpent(s.client, request, cancellable, aborted, id);
    case CallResumes(other) => ResumeKeepsSpent(s.client, other, id);
    case CallWakes(other) => WakeKeepsSpent(s.client, other, id);
    case TimerFires(other, message) =>
      SettleKeepsSpent(s.client, other, s.client.pending[other], Rejected(Transport(message)), id);
    case SendFails(other, attempt, message) =>
      SettleKeepsSpent(s.client, other, attempt, Rejected(Transport(message)), id);
    case AbortFires(other) => AbortKeepsSpent(s.client, other, id);
    case ResponseArrives(other, response) =>
      if other in s.client.pending && other in s.client.calls {
        SettleKeepsSpent(s.client.(pending := s.client.pending - {other}), other, s.client.pending[other],
          Resolved(response), id);
      }
    case _ =>
  }

  lemma {:induction false} SpentRun(s: System, events: seq<Event>, id: nat)
    requires SystemInv(s) && Spent(s.client, id) && CanRun(s, events)
    ensures CountSends(Run(s, events).client.sent, id) == CountSends(s.client.sent, id)
    decreases |events|
  {
    if events != [] {
      StepInv(s, events[0]);
      StepKeepsSpent(s, events[0], id);
      SpentRun(Step(s, events[0]), events[1..], id);
    }
  }

  /** Some run goes on to send a record of this call. */
  ghost predicate SendsAgain(s: System, id: nat) {
    exists events | CanRun(s, events) :: CountSends(Run(s, events).client.sent, id) != CountSends(s.client.sent, id)
  }

  lemma AbortSpendsIff(c: Client, id: nat)
    requires Valid(c) && id in c.calls && c.calls[id].cancellable && !c.calls[id].aborted
    ensures var d := Abort(c, id);
      d.failure == c.failure && (MaySend(d, c.failure.Some?, id) <==> MaySend(c, c.failure.Some?, id))
    ensures !MaySend(c, c.failure.Some?, id) ==> Spent(Abort(c, id), id)
  {
    assert ValidCall(c.options, c.calls[id], Entry(c, id));
  }

  /**
   * An aborted call sends again in some run exactly when, at the abort, it was asleep in its backoff or held an
   * unread outcome that it retries. Otherwise it never sends again.
   */
  lemma SendsAfterAbortIff(s: System, id: nat)
    requires SystemInv(s) && id in s.client.calls && s.client.calls[id].cancellable && !s.client.calls[id].aborted
    ensures SendsAgain(Step(s, AbortFires(id)), id) <==> MaySend(s.client, s.client.failure.Some?, id)
  {
    var d := Step(s, AbortFires(id));
    StepInv(s, AbortFires(id));
    AbortSpendsIff(s.client, id);
    if MaySend(s.client, s.client.failure.Some?, id) {
      var events := RetryingSends(d, id);
      CountAppend(d.client.sent, Send(id, d.client.calls[id].attempt + 1, d.client.calls[id].request), id);
    } else {
      forall events | CanRun(d, events)
        ensures CountSends(Run(d, events).client.sent, id) == CountSends(d.client.sent, id) {
        SpentRun(d, events, id);
      }
    }
  }

  // ---------------------------------------------------------------- why a call throws

  /** Attempts are rejected by a failed transport, by the call's own signal, or by a shutdown. */
  predicate IsRejection(shut: bool, call: Call, failure: Failure) {
    failure.Transport? || (failure.Cancelled? && call.cancellable && call.aborted) || (failure.ShutDown? && shut)
  }

  /** The outcome of a call's last attempt is a reason to throw this. */
  predicate Explains(options: Options, shut: bool, call: Call, outcome: Settlement, thrown: Failure) {
    match outcome
    case Rejected(failure) => thrown == failure && (failure.Transport? ==> shut || call.attempt >= options.maxAttempts)
    case Resolved(Ok(_)) => false
    case Resolved(Refused(code, message, retryable)) =>
      thrown == (if code == "request" then BadRequest(message) else Rpc(code, message))
        && (retryable ==> call.attempt >= options.maxAttempts)
  }

  ghost predicate ExplainedCall(options: Options, shut: bool, call: Call) {
    && (forall k | k in call.outcomes && call.outcomes[k].Rejected? ::
         IsRejection(shut, call, call.outcomes[k].failure))
    && (call.phase.Threw? ==>
         && call.attempt in call.outcomes
         && Explains(options, shut, call, call.outcomes[call.attempt], call.phase.failure))
  }

  ghost predicate Explained(c: Client) {
    forall id | id in c.calls :: ExplainedCall(c.options, c.failure.Some?, c.calls[id])
  }

  lemma SettleExplained(c: Client, id: nat, attempt: nat, outcome: Settlement)
    requires Explained(c) && id in c.calls
    requires outcome.Rejected? ==> IsRejection(c.failure.Some?, c.calls[id], outcome.failure)
    ensures Explained(Settle(c, id, attempt, outcome))
  {}

  lemma AbortExplained(c: Client, id: nat)
    requires Explained(c) && id in c.calls
    ensures Explained(Abort(c, id))
  {
    var marked := c.(calls := c.calls[id := c.calls[id].(aborted := true)]);
    assert Explained(marked);
    if c.calls[id].cancellable {
      SettleExplained(marked, id, c.calls[id].attempt, Rejected(Cancelled));
    }
  }

  lemma ShutdownExplained(c: Client, reason: string)
    requires Explained(c)
    ensures Explained(Shutdown(c, ShutDown(reason)))
  {}

  lemma ResumeExplained(c: Client, id: nat)
    requires Explained(c) && CanResume(c, id)
    ensures Explained(Resume(c, id))
  {}

  lemma StepExplained(s: System, e: Event)
    requires Explained(s.client) && Enabled(s, e)
    ensures Explained(Step(s, e).client)
  {
    match e
    case CallResumes(id) => ResumeExplained(s.client, id);
    case TimerFires(id, message) => SettleExplained(s.client, id, s.client.pending[id], Rejected(Transport(message)));
    case SendFails(id, attempt, message) => SettleExplained(s.client, id, attempt, Rejected(Transport(message)));
    case AbortFires(id) => AbortExplained(s.client, id);
    case ChannelShutsDown(reason) => ShutdownExplained(s.client, reason);
    case ResponseArrives(id, response) =>
      if id in s.client.pending && id in s.client.calls {
        SettleExplained(s.client.(pending := s.client.pending - {id}), id, s.client.pending[id], Resolved(response));
      }
    case _ =>
  }

  lemma {:induction false} RunExplained(s: System, events: seq<Event>)
    requires Explained(s.client) && CanRun(s, events)
    ensures Explained(Run(s, events).client)
    decreases |events|
  {
    if events != [] {
      StepExplained(s, events[0]);
      RunExplained(Step(s, events[0]), events[1..]);
    }
  }

  /** The event that settled an attempt this way. */
  predicate Settles(e: Event, id: nat, attempt: nat, outcome: Settlement) {
    match outcome
    case Resolved(response) => e == ResponseArrives(id, response)
    case Rejected(Transport(message)) => e == TimerFires(id, message) || e == SendFails(id, attempt, message)
    case Rejected(Cancelled) => e == AbortFires(id)
    case Rejected(ShutDown(reason)) => e == ChannelShutsDown(reason)
    case Rejected(_) => false
  }

  ghost predicate SettledBy(past: seq<Event>, id: nat, attempt: nat, outcome: Settlement) {
    exists e | e in past :: Settles(e, id, attempt, outcome)
  }

  /** Every settled attempt was settled by something that happened. */
  ghost predicate AllSettled(c: Client, past: seq<Event>) {
    forall id, k | id in c.calls && k in c.calls[id].outcomes :: SettledBy(past, id, k, c.calls[id].outcomes[k])
  }

  lemma StillSettled(past: seq<Event>, e: Event, id: nat, k: nat, outcome: Settlement)
    requires SettledBy(past, id, k, outcome) || Settles(e, id, k, outcome)
    ensures SettledBy(past + [e], id, k, outcome)
  {
    if SettledBy(past, id, k, outcome) {
      var x :| x in past && Settles(x, id, k, outcome);
      assert x in past + [e];
    } else {
      assert e in past + [e];
    }
  }

  /** A step leaves the outcomes that there were, and any other is its own doing. */
  ghost predicate SettlesOnly(c: Client, d: Client, e: Event) {
    forall id, k | id in d.calls && k in d.calls[id].outcomes ::
      (id in c.calls && k in c.calls[id].outcomes && c.calls[id].outcomes[k] == d.calls[id].outcomes[k])
      || Settles(e, id, k, d.calls[id].outcomes[k])
  }

  lemma SettleSettles(c: Client, id: nat, attempt: nat, outcome: Settlement, e: Event)
    requires id in c.calls && Settles(e, id, attempt, outcome)
    ensures SettlesOnly(c, Settle(c, id, attempt, outcome), e)
  {}

  lemma AbortSettles(c: Client, id: nat)
    requires id in c.calls
    ensures SettlesOnly(c, Abort(c, id), AbortFires(id))
  {}

  lemma ShutdownSettles(c: Client, reason: string)
    ensures SettlesOnly(c, Shutdown(c, ShutDown(reason)), ChannelShutsDown(reason))
  {}

  lemma StepSettlesOnly(s: System, e: Event)
    requires Enabled(s, e)
    ensures SettlesOnly(s.client, Step(s, e).client, e)
  {
    match e
    case TimerFires(id, message) => SettleSettles(s.client, id, s.client.pending[id], Rejected(Transport(message)), e);
    case SendFails(id, attempt, message) => SettleSettles(s.client, id, attempt, Rejected(Transport(message)), e);
    case AbortFires(id) => AbortSettles(s.client, id);
    case ChannelShutsDown(reason) => ShutdownSettles(s.client, reason);
    case ResponseArrives(id, response) =>
      if id in s.client.pending && id in s.client.calls {
        SettleSettles(s.client.(pending := s.client.pending - {id}), id, s.client.pending[id], Resolved(response), e);
      }
    case _ =>
  }

  lemma StepAllSettled(s: System, e: Event, past: seq<Event>)
    requires AllSettled(s.client, past) && Enabled(s, e)
    ensures AllSettled(Step(s, e).client, past + [e])
  {
    StepSettlesOnly(s, e);
    var d := Step(s, e).client;
    forall id, k | id in d.calls && k in d.calls[id].outcomes
      ensures SettledBy(past + [e], id, k, d.calls[id].outcomes[k]) {
      StillSettled(past, e, id, k, d.calls[id].outcomes[k]);
    }
  }

  lemma {:induction false} RunAllSettled(s: System, events: seq<Event>, past: seq<Event>)
    requires AllSettled(s.client, past) && CanRun(s, events)
    ensures AllSettled(Run(s, events).client, past + events)
    decreases |events|
  {
    if events == [] {
      assert past + [] == past;
    } else {
      StepAllSettled(s, events[0], past);
      RunAllSettled(Step(s, events[0]), events[1..], past + [events[0]]);
      assert past + [events[0]] + events[1..] == past + events;
    }
  }

  /**
   * Over every interleaving a call throws only what happened to it: a refusal that arrived for it and, before its last
   * attempt, was not retryable; a timeout or a failed send of its last attempt, or after a shutdown; its own
   * abort, if it has a context; or the shutdown.
   */
  lemma ThrowsOnlyWhatHappened(options: Options, events: seq<Event>, id: nat)
    requires options.maxAttempts >= 1 && CanRun(Start(options), events)
    requires id in Run(Start(options), events).client.calls && Run(Start(options), events).client.calls[id].phase.Threw?
    ensures var s := Run(Start(options), events);
      Happened(options, s.client.failure.Some?, events, id, s.client.calls[id], s.client.calls[id].phase.failure)
  {
    RunFromStart(options, events);
    RunExplained(Start(options), events);
    RunAllSettled(Start(options), events, []);
    assert [] + events == events;
    var s := Run(Start(options), events);
    var call := s.client.calls[id];
    assert ValidCall(s.client.options, call, Entry(s.client, id));
    assert ExplainedCall(s.client.options, s.client.failure.Some?, call);
    LastOutcomeHappened(options, s.client.failure.Some?, events, id, call, call.outcomes[call.attempt],
      call.phase.failure);
  }

  lemma LastOutcomeHappened(options: Options, shut: bool, events: seq<Event>, id: nat, call: Call, outcome: Settlement,
          thrown: Failure)
    requires call.attempt <= options.maxAttempts && Explains(options, shut, call, outcome, thrown)
    requires outcome.Rejected? ==> IsRejection(shut, call, outcome.failure)
    requires SettledBy(events, id, call.attempt, outcome)
    ensures Happened(options, shut, events, id, call, thrown)
  {
    var e :| e in events && Settles(e, id, call.attempt, outcome);
  }

  ghost predicate Happened(options: Options, shut: bool, events: seq<Event>, id: nat, call: Call, thrown: Failure) {
    match thrown
    case Transport(message) =>
      (TimerFires(id, message) in events || SendFails(id, call.attempt, message) in events)
        && (call.attempt == options.maxAttempts || shut)
    case Cancelled => AbortFires(id) in events && call.cancellable
    case ShutDown(reason) => ChannelShutsDown(reason) in events
    case BadRequest(message) => WasRefused(events, id, "request", message, call.attempt < options.maxAttempts)
    case Rpc(code, message) =>
      code != "request" && WasRefused(events, id, code, message, call.attempt < options.maxAttempts)
    case StorageClosed => false
  }

  /** The refusal arrived; one that ended the call before its last attempt was not retryable. */
  ghost predicate WasRefused(events: seq<Event>, id: nat, code: string, message: string, early: bool) {
    exists retryable: bool :: ResponseArrives(id, Refused(code, message, retryable)) in events && (early ==> !retryable)
  }
}
