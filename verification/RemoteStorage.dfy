/**
 * The storage RPC client (apps/agent-runtime-durable/src/remote-storage.ts).
 *
 * A storage call is a coroutine that awaits one attempt after another under one request id. Every
 * `await` is a yield point here: `Begin`, `Resume` and `Wake` run a call from one yield point to the
 * next, and `Accept`, `Settle`, `Abort` and `Shutdown` are what can happen in between. `n` stands for
 * the request id `storage-n`, and the pair (n, k) for the `PendingCall` object of attempt k of call n.
 */
module RemoteStorageModel {
  import opened Wrappers

  datatype Request = Request(operation: string, args: seq<string>)

  datatype Response =
    | Ok(result: string)
    | Refused(code: string, message: string, retryable: bool)

  datatype Failure =
    | Transport(message: string)
    | Cancelled
    | ShutDown(reason: string)
    | BadRequest(message: string)
    | Rpc(code: string, message: string)
    | StorageClosed

  /** How the promise of one attempt settled. */
  datatype Settlement = Resolved(response: Response) | Rejected(failure: Failure)

  /** Where a call's coroutine is suspended, or how it ended. */
  datatype Phase =
    | Awaiting
    | Backoff(ms: nat)
    | Returned(result: string)
    | Threw(failure: Failure)

  /**
   * One call: `outcomes` holds the settled promises of its attempts, `cancellable` says that it
   * carries a context, and `waited` adds up the delays it has slept.
   */
  datatype Call = Call(
    request: Request, cancellable: bool, attempt: nat, phase: Phase,
    outcomes: map<nat, Settlement>, waited: nat, aborted: bool)

  datatype Send = Send(id: nat, attempt: nat, request: Request)

  datatype Options = Options(maxAttempts: nat, baseBackoffMs: nat, maxBackoffMs: nat)

  datatype Client = Client(
    options: Options,
    nextId: nat,
    closed: bool,
    failure: Option<Failure>,
    lastError: Option<Failure>,
    pending: map<nat, nat>,
    calls: map<nat, Call>,
    sent: seq<Send>)

  /** `ms * 2 ** times`. */
  function Doubled(ms: nat, times: nat): nat {
    if times == 0 then ms else 2 * Doubled(ms, times - 1)
  }

  /** The delay after a failed attempt. */
  function BackoffMs(options: Options, attempt: nat): nat
    requires attempt >= 1
  {
    var ms := Doubled(options.baseBackoffMs, attempt - 1);
    if ms < options.maxBackoffMs then ms else options.maxBackoffMs
  }

  function Init(options: Options): Client {
    Client(options, 0, false, None, None, map[], map[], [])
  }

  /** A promise settles once: later outcomes are lost. */
  function SettleOnce(call: Call, attempt: nat, outcome: Settlement): Call {
    if attempt in call.outcomes then call else call.(outcomes := call.outcomes[attempt := outcome])
  }

  /** The `resolve` and `reject` closures of one attempt: clean up by identity, then settle once. */
  function Settle(c: Client, id: nat, attempt: nat, outcome: Settlement): Client
    requires id in c.calls
  {
    c.(pending := if id in c.pending && c.pending[id] == attempt then c.pending - {id} else c.pending,
       calls := c.calls[id := SettleOnce(c.calls[id], attempt, outcome)])
  }

  /** A runner response: a response nobody waits for is dropped. */
  function Accept(c: Client, id: nat, response: Response): Client {
    if id in c.pending && id in c.calls
    then Settle(c.(pending := c.pending - {id}), id, c.pending[id], Resolved(response))
    else c
  }

  /** The abort signal fires at most once, and reaches a call only through the listener of a live attempt. */
  function Abort(c: Client, id: nat): Client
    requires id in c.calls
  {
    var call := c.calls[id];
    var marked := c.(calls := c.calls[id := call.(aborted := true)]);
    if call.cancellable && !call.aborted && call.phase.Awaiting? && call.attempt !in call.outcomes
    then Settle(marked, id, call.attempt, Rejected(Cancelled))
    else marked
  }

  /** The channel is gone: the entry of every waiting call is dropped and its promise rejected. */
  function Shutdown(c: Client, error: Failure): Client {
    RejectedExcept(c.(failure := if c.failure.Some? then c.failure else Some(error)), map[], error)
  }

  /** A shutdown in progress: every pending entry but those in `todo` is rejected. */
  function RejectedExcept(c: Client, todo: map<nat, nat>, error: Failure): Client {
    c.(pending := todo,
       calls := map id | id in c.calls ::
         if id in c.pending && id !in todo then SettleOnce(c.calls[id], c.pending[id], Rejected(error))
         else c.calls[id])
  }

  /** Registers the pending entry of the call's current attempt and hands the record to the channel. */
  function StartAttempt(c: Client, id: nat, call: Call): Client {
    c.(pending := c.pending[id := call.attempt],
       calls := c.calls[id := call.(phase := Awaiting)],
       sent := c.sent + [Send(id, call.attempt, call.request)])
  }

  /** Why a new call is refused before it gets an id. */
  function Refusal(c: Client, aborted: bool): Option<Failure> {
    if c.closed then Some(StorageClosed)
    else if c.failure.Some? then c.failure
    else if aborted then Some(Cancelled)
    else None
  }

  function NewCall(request: Request, cancellable: bool): Call {
    Call(request, cancellable, 1, Awaiting, map[], 0, false)
  }

  /** Starts a call: the source's `#call` up to its first `await`. */
  function Begin(c: Client, request: Request, cancellable: bool, aborted: bool): Client {
    if Refusal(c, aborted).Some? then c
    else StartAttempt(c.(nextId := c.nextId + 1), c.nextId + 1, NewCall(request, cancellable))
  }

  /** A call whose attempt has settled can go on. */
  predicate CanResume(c: Client, id: nat) {
    id in c.calls && c.calls[id].phase.Awaiting? && c.calls[id].attempt in c.calls[id].outcomes
      && c.calls[id].attempt >= 1
  }

  function NextPhase(c: Client, call: Call, outcome: Settlement): Phase
    requires call.attempt >= 1
  {
    var last := call.attempt >= c.options.maxAttempts;
    match outcome
    case Rejected(failure) =>
      if !failure.Transport? || last || c.failure.Some? then Threw(failure)
      else Backoff(BackoffMs(c.options, call.attempt))
    case Resolved(Ok(result)) => Returned(result)
    case Resolved(Refused(code, message, retryable)) =>
      if retryable && !last then Backoff(BackoffMs(c.options, call.attempt))
      else if code == "request" then Threw(BadRequest(message))
      else Threw(Rpc(code, message))
  }

  /** Continues a call after its attempt settled. */
  function Resume(c: Client, id: nat): Client
    requires CanResume(c, id)
  {
    var call := c.calls[id];
    var outcome := call.outcomes[call.attempt];
    var phase := NextPhase(c, call, outcome);
    c.(calls := c.calls[id := call.(phase := phase)],
       lastError :=
         if phase.Threw? && phase.failure.Rpc? && outcome.Resolved? then Some(phase.failure) else c.lastError)
  }

  predicate CanWake(c: Client, id: nat) {
    id in c.calls && c.calls[id].phase.Backoff?
  }

  /** A call as it enters its next attempt, its delay slept. */
  function NextAttempt(call: Call): Call
    requires call.phase.Backoff?
  {
    call.(attempt := call.attempt + 1, waited := call.waited + call.phase.ms)
  }

  /** Continues a call after its delay: the next attempt, under the same id. */
  function Wake(c: Client, id: nat): Client
    requires CanWake(c, id)
  {
    StartAttempt(c, id, NextAttempt(c.calls[id]))
  }

  /** `close` marks the storage closed once its own call has ended, either way. */
  function CloseEnded(c: Client): Client {
    c.(closed := true)
  }

  // ---------------------------------------------------------------- the client invariant

  /** All the delay a call can have slept before its attempt number `attempts + 1`. */
  function SumBackoff(options: Options, attempts: nat): nat {
    if attempts == 0 then 0 else SumBackoff(options, attempts - 1) + BackoffMs(options, attempts)
  }

  function CountSends(sent: seq<Send>, id: nat): nat {
    if sent == [] then 0
    else CountSends(sent[..|sent| - 1], id) + (if sent[|sent| - 1].id == id then 1 else 0)
  }

  /** A call against its own pending entry. */
  ghost predicate ValidCall(options: Options, call: Call, entry: Option<nat>) {
    && 1 <= call.attempt <= options.maxAttempts
    && (entry.Some? <==> call.phase.Awaiting? && call.attempt !in call.outcomes)
    && (entry.Some? ==> entry.value == call.attempt)
    && (!call.phase.Awaiting? ==> call.attempt in call.outcomes)
    && (forall k | 1 <= k < call.attempt :: k in call.outcomes)
    && (forall k | k in call.outcomes :: 1 <= k <= call.attempt)
    && (call.phase.Backoff? ==> call.attempt < options.maxAttempts && call.phase.ms == BackoffMs(options, call.attempt))
  }

  function Entry(c: Client, id: nat): Option<nat> {
    if id in c.pending then Some(c.pending[id]) else None
  }

  /** There is at most one pending entry per call, and it is the one of its live attempt. */
  ghost predicate Valid(c: Client) {
    && c.options.maxAttempts >= 1
    && (forall id :: id in c.calls <==> 1 <= id <= c.nextId)
    && c.pending.Keys <= c.calls.Keys
    && (forall id | id in c.calls :: ValidCall(c.options, c.calls[id], Entry(c, id)))
  }

  /** Every record sent carries its call's own request, one record an attempt, and every delay was the scheduled one. */
  ghost predicate Accounted(c: Client) {
    && (forall s | s in c.sent :: s.id in c.calls && s.request == c.calls[s.id].request)
    && (forall id | id in c.calls :: AccountedCall(c.options, c.calls[id], CountSends(c.sent, id)))
  }

  ghost predicate AccountedCall(options: Options, call: Call, sends: nat) {
    && sends == call.attempt
    && call.attempt >= 1
    && call.waited == SumBackoff(options, call.attempt - 1)
  }

  lemma CountNone(sent: seq<Send>, id: nat)
    requires forall s | s in sent :: s.id != id
    ensures CountSends(sent, id) == 0
  {}

  lemma CountAppend(sent: seq<Send>, s: Send, id: nat)
    ensures CountSends(sent + [s], id) == CountSends(sent, id) + (if s.id == id then 1 else 0)
  {
    assert (sent + [s])[..|sent|] == sent;
  }

  lemma SettleValid(c: Client, id: nat, attempt: nat, outcome: Settlement)
    requires Valid(c) && id in c.calls && 1 <= attempt <= c.calls[id].attempt
    ensures Valid(Settle(c, id, attempt, outcome))
  {}

  /** An attempt that is no longer the call's live one changes nothing when its timer or send fails late. */
  lemma AttemptIsolation(c: Client, id: nat, attempt: nat, outcome: Settlement)
    requires Valid(c) && id in c.calls && 1 <= attempt <= c.calls[id].attempt
    requires attempt < c.calls[id].attempt || id !in c.pending
    ensures Settle(c, id, attempt, outcome) == c
  {
    assert ValidCall(c.options, c.calls[id], Entry(c, id));
    assert c.calls[id := c.calls[id]] == c.calls;
  }

  lemma AcceptValid(c: Client, id: nat, response: Response)
    requires Valid(c)
    ensures Valid(Accept(c, id, response))
    ensures id in c.pending ==> Accept(c, id, response) == Settle(c, id, c.calls[id].attempt, Resolved(response))
    ensures id !in c.pending ==> Accept(c, id, response) == c
  {
    if id in c.pending {
      assert ValidCall(c.options, c.calls[id], Entry(c, id));
      SettleValid(c, id, c.pending[id], Resolved(response));
    }
  }

  lemma ShutdownValid(c: Client, error: Failure)
    requires Valid(c)
    ensures Valid(Shutdown(c, error))
  {}

  lemma BeginValid(c: Client, request: Request, cancellable: bool, aborted: bool)
    requires Valid(c)
    ensures Valid(Begin(c, request, cancellable, aborted))
  {}

  lemma ResumeValid(c: Client, id: nat)
    requires Valid(c) && CanResume(c, id)
    ensures Valid(Resume(c, id))
  {}

  lemma WakeValid(c: Client, id: nat)
    requires Valid(c) && CanWake(c, id)
    ensures Valid(Wake(c, id))
  {
    assert ValidCall(c.options, c.calls[id], Entry(c, id));
  }

  /** Only a new attempt sends: any other step keeps the accounts. */
  lemma AccountedKept(c: Client, d: Client)
    requires Accounted(c) && d.sent == c.sent && d.options == c.options && d.calls.Keys == c.calls.Keys
    requires forall id | id in c.calls ::
      && d.calls[id].attempt == c.calls[id].attempt && d.calls[id].waited == c.calls[id].waited
      && d.calls[id].request == c.calls[id].request
    ensures Accounted(d)
  {
    forall id | id in d.calls ensures AccountedCall(d.options, d.calls[id], CountSends(d.sent, id)) {
      assert AccountedCall(c.options, c.calls[id], CountSends(c.sent, id));
    }
  }

  lemma StartAttemptAccounted(c: Client, id: nat, call: Call)
    requires Accounted(c)
    requires call.attempt == CountSends(c.sent, id) + 1
    requires call.waited == SumBackoff(c.options, call.attempt - 1)
    requires id in c.calls ==> call.request == c.calls[id].request
    ensures Accounted(StartAttempt(c, id, call))
  {
    var d := StartAttempt(c, id, call);
    forall other | other in d.calls ensures AccountedCall(d.options, d.calls[other], CountSends(d.sent, other)) {
      CountAppend(c.sent, Send(id, call.attempt, call.request), other);
      if other != id {
        assert AccountedCall(c.options, c.calls[other], CountSends(c.sent, other));
      }
    }
  }

  lemma NoneSentYet(c: Client)
    requires Valid(c) && Accounted(c)
    ensures CountSends(c.sent, c.nextId + 1) == 0 && c.nextId + 1 !in c.calls
  {
    CountNone(c.sent, c.nextId + 1);
  }

  lemma BeginAccounted(c: Client, request: Request, cancellable: bool, aborted: bool)
    requires Valid(c) && Accounted(c)
    ensures Accounted(Begin(c, request, cancellable, aborted))
  {
    if Refusal(c, aborted).None? {
      NoneSentYet(c);
      FirstAttemptAccounted(c, request, cancellable);
    }
    BeginIs(c, request, cancellable, aborted);
  }

  lemma BeginIs(c: Client, request: Request, cancellable: bool, aborted: bool)
    ensures Begin(c, request, cancellable, aborted) ==
      if Refusal(c, aborted).Some? then c
      else StartAttempt(c.(nextId := c.nextId + 1), c.nextId + 1, NewCall(request, cancellable))
  {}

  lemma FirstAttemptAccounted(c: Client, request: Request, cancellable: bool)
    requires Accounted(c) && CountSends(c.sent, c.nextId + 1) == 0 && c.nextId + 1 !in c.calls
    ensures Accounted(StartAttempt(c.(nextId := c.nextId + 1), c.nextId + 1, NewCall(request, cancellable)))
  {
    var d := c.(nextId := c.nextId + 1);
    AccountedKept(c, d);
    assert SumBackoff(d.options, 0) == 0;
    StartAttemptAccounted(d, c.nextId + 1, NewCall(request, cancellable));
  }

  lemma WakeAccounted(c: Client, id: nat)
    requires Valid(c) && Accounted(c) && CanWake(c, id)
    ensures Accounted(Wake(c, id))
  {
    assert ValidCall(c.options, c.calls[id], Entry(c, id));
    assert AccountedCall(c.options, c.calls[id], CountSends(c.sent, id));
    StartAttemptAccounted(c, id, NextAttempt(c.calls[id]));
  }

  // ---------------------------------------------------------------- the object

  lemma RejectNone(c: Client, error: Failure)
    ensures RejectedExcept(c, c.pending, error) == c
  {
    assert RejectedExcept(c, c.pending, error).calls == c.calls;
  }

  lemma RejectOne(c: Client, todo: map<nat, nat>, id: nat, error: Failure)
    requires id in todo && todo.Keys <= c.pending.Keys <= c.calls.Keys
    ensures RejectedExcept(c, todo - {id}, error)
      == Settle(RejectedExcept(c, todo, error).(pending := todo - {id}), id, c.pending[id], Rejected(error))
  {
    var settled := Settle(RejectedExcept(c, todo, error).(pending := todo - {id}), id, c.pending[id], Rejected(error));
    assert RejectedExcept(c, todo - {id}, error).calls == settled.calls;
  }

  /** The object itself; `calls` holds its suspended coroutines and their promises. */
  class RemoteStorage {
    const options: Options
    var nextId: nat
    var closed: bool
    var failure: Option<Failure>
    var lastError: Option<Failure>
    var pending: map<nat, nat>
    var calls: map<nat, Call>
    var sent: seq<Send>

    function State(): Client
      reads this
    {
      Client(options, nextId, closed, failure, lastError, pending, calls, sent)
    }

    constructor (options: Options)
      requires options.maxAttempts >= 1
      ensures State() == Init(options) && Valid(State())
    {
      this.options := options;
      nextId, closed, failure, lastError := 0, false, None, None;
      pending, calls, sent := map[], map[], [];
    }

    /** The `resolve` or `reject` closure of one attempt. */
    method SettleAttempt(id: nat, attempt: nat, outcome: Settlement)
      requires id in calls
      modifies this
      ensures State() == Settle(old(State()), id, attempt, outcome)
    {
      if id in pending && pending[id] == attempt {
        pending := pending - {id};
      }
      calls := calls[id := SettleOnce(calls[id], attempt, outcome)];
    }

    method AcceptResponse(id: nat, response: Response)
      requires Valid(State())
      modifies this
      ensures State() == Accept(old(State()), id, response) && Valid(State())
    {
      AcceptValid(State(), id, response);
      if id !in pending {
        return;
      }
      var attempt := pending[id];
      pending := pending - {id};
      SettleAttempt(id, attempt, Resolved(response));
    }

    /** Drops one entry and rejects its promise. */
    method RejectEntry(id: nat, attempt: nat, error: Failure)
      requires id in calls
      modifies this
      ensures State() == Settle(old(State()).(pending := old(pending) - {id}), id, attempt, Rejected(error))
    {
      pending := pending - {id};
      SettleAttempt(id, attempt, Rejected(error));
    }

    /** Rejects a snapshot of the pending entries one by one. */
    method ShutDownWith(error: Failure)
      requires pending.Keys <= calls.Keys
      modifies this
      ensures State() == Shutdown(old(State()), error)
    {
      failure := if failure.Some? then failure else Some(error);
      ghost var before := State();
      var todo := pending;
      RejectNone(before, error);
      while todo != map[]
        invariant todo.Keys <= before.pending.Keys <= before.calls.Keys
        invariant forall id | id in todo :: todo[id] == before.pending[id]
        invariant State() == RejectedExcept(before, todo, error)
        decreases |todo|
      {
        var id :| id in todo;
        assert id in todo.Keys;
        RejectOne(before, todo, id, error);
        RejectEntry(id, todo[id], error);
        todo := todo - {id};
      }
    }

    method StartCall(request: Request, cancellable: bool, aborted: bool) returns (refused: Option<Failure>)
      requires Valid(State())
      modifies this
      ensures refused == Refusal(old(State()), aborted)
      ensures State() == Begin(old(State()), request, cancellable, aborted) && Valid(State())
    {
      BeginValid(State(), request, cancellable, aborted);
      if closed {
        return Some(StorageClosed);
      }
      if failure.Some? {
        return failure;
      }
      if aborted {
        return Some(Cancelled);
      }
      nextId := nextId + 1;
      RegisterAttempt(nextId, NewCall(request, cancellable));
      refused := None;
    }

    method RegisterAttempt(id: nat, call: Call)
      modifies this
      ensures State() == StartAttempt(old(State()), id, call)
    {
      pending := pending[id := call.attempt];
      calls := calls[id := call.(phase := Awaiting)];
      sent := sent + [Send(id, call.attempt, call.request)];
    }

    /** The part of the retry loop between a settled attempt and the next `await`. */
    method ContinueCall(id: nat)
      requires Valid(State()) && CanResume(State(), id)
      modifies this
      ensures State() == Resume(old(State()), id) && Valid(State())
    {
      ResumeValid(State(), id);
      var call := calls[id];
      var outcome := call.outcomes[call.attempt];
      var phase := NextPhase(State(), call, outcome);
      calls := calls[id := call.(phase := phase)];
      if outcome.Resolved? && phase.Threw? && phase.failure.Rpc? {
        lastError := Some(phase.failure);
      }
    }

    method DelayEnded(id: nat)
      requires Valid(State()) && CanWake(State(), id)
      modifies this
      ensures State() == Wake(old(State()), id) && Valid(State())
    {
      WakeValid(State(), id);
      RegisterAttempt(id, NextAttempt(calls[id]));
    }
  }
}
