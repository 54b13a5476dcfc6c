/**
 * The dispatcher: the entry point subscribers use. It wraps a batch handler in an
 * exception-resolution loop (Retry, Abort, Ignore) and, when asked to, restarts a
 * subscription from the beginning when the log reports an unknown checkpoint.
 *
 * What the dispatcher does to the outside world is recorded, in order, as a
 * sequence of effects. An action that the loop runs is described by what each of
 * its attempts does and whether that attempt threw.
 */
module Dispatching {
  import opened Core

  datatype ExceptionResolution = Ignore | Abort | Retry

  /** A subscriber's batch handler, by identity. */
  type Handler(!new)

  /** The disposable handle of a live subscription. */
  type SubscriptionHandle(!new)

  /** A caller-supplied BeforeRestarting delegate, by identity. */
  type HookId(!new)

  /** BeforeRestarting: the default no-op, or a delegate supplied by the caller. */
  datatype Hook = NoOp | Supplied(id: HookId)

  datatype SubscriptionOptions = SubscriptionOptions(
    id: Option<string>,
    restartWhenAhead: bool,
    beforeRestarting: Hook)

  /** What a fresh options object holds: no id, no restart, a no-op hook. */
  const DefaultOptions := SubscriptionOptions(None, false, NoOp)

  datatype SubscriptionInfo = SubscriptionInfo(id: Option<string>, subscription: Option<SubscriptionHandle>)

  /** The exception policy: exception, attempt number (from 1) and subscription to a resolution. */
  type HandleException = (Exception, int, SubscriptionInfo) -> ExceptionResolution

  /** The policy a new dispatcher starts with: abort on every exception. */
  const DefaultExceptionHandler: HandleException := (e, attempts, info) => Abort

  /** The arguments handed to the subscription factory. */
  datatype SubscriptionRequest = SubscriptionRequest(
    from: Option<int>,
    handler: Handler,
    options: SubscriptionOptions)

  const BatchAbortMessage := "Projector exception was not handled. Event subscription has been cancelled."
  const RestartAbortMessage := "Failed to restart the projector."

  datatype Effect =
    | SubscriptionCreated(request: SubscriptionRequest)
    | Attempted(attempt: int)
    | Consulted(attempt: int, error: Exception, resolution: ExceptionResolution)
    | HandlerInvoked(handler: Handler, batch: seq<Transaction>, info: SubscriptionInfo)
    | HookRan(hook: Hook)
    | Disposed(subscription: SubscriptionHandle)
    | FatalLogged(message: string, error: Exception)

  datatype Outcome = Succeeded | Threw(error: Exception)

  /** One run of an action: what it did, and how it ended. */
  datatype Attempt = Attempt(effects: seq<Effect>, outcome: Outcome)

  /**
   * How the loop ended. `Unresolved` means every modelled attempt threw and was
   * answered with Retry: the loop would go on beyond the attempts described.
   */
  datatype Completion = Completed | Aborted(error: Exception) | Ignored(error: Exception) | Unresolved

  datatype Run = Run(effects: seq<Effect>, completion: Completion)

  // ---------------------------------------------------------------------------
  // The resolution loop, as a function of the attempts.
  // ---------------------------------------------------------------------------

  /**
   * The loop from attempt number `attempt` on: run the action; on success stop; on
   * an exception ask the policy and retry, or run the abort callback, or run the
   * ignore callback when there is one.
   */
  function PolicyRun(policy: HandleException, info: SubscriptionInfo, action: seq<Attempt>, attempt: int,
                     abort: Exception -> seq<Effect>, ignore: Option<seq<Effect>>): Run
    decreases |action|
  {
    if action == [] then Run([], Unresolved)
    else
      var tried := [Attempted(attempt)] + action[0].effects;
      match action[0].outcome
      case Succeeded => Run(tried, Completed)
      case Threw(e) =>
        var resolution := policy(e, attempt, info);
        var consulted := tried + [Consulted(attempt, e, resolution)];
        match resolution
        case Abort => Run(consulted + abort(e), Aborted(e))
        case Ignore => Run(consulted + (if ignore.Some? then ignore.value else []), Ignored(e))
        case Retry =>
          var rest := PolicyRun(policy, info, action[1..], attempt + 1, abort, ignore);
          Run(consulted + rest.effects, rest.completion)
  }

  /** Whether the loop ends after attempt number `n` when that attempt goes as `a` says. */
  predicate Stops(policy: HandleException, info: SubscriptionInfo, a: Attempt, n: int)
  {
    a.outcome.Succeeded? || policy(a.outcome.error, n, info) != Retry
  }

  /** Each of the first `k` attempts threw and the policy answered Retry. */
  predicate Retried(policy: HandleException, info: SubscriptionInfo, action: seq<Attempt>, first: int, k: nat)
    requires k <= |action|
  {
    forall i :: 0 <= i < k ==> !Stops(policy, info, action[i], first + i)
  }

  /** The index of the attempt after which the loop ends, or |action| if none does. */
  function StopIndex(policy: HandleException, info: SubscriptionInfo, action: seq<Attempt>, first: int): (k: nat)
    ensures k <= |action|
    ensures Retried(policy, info, action, first, k)
    ensures k < |action| ==> Stops(policy, info, action[k], first + k)
    decreases |action|
  {
    if action == [] || Stops(policy, info, action[0], first) then 0
    else 1 + StopIndex(policy, info, action[1..], first + 1)
  }

  /** What the loop records for attempt number `n`: the attempt, its effects, and the consultation if it threw. */
  function Segment(policy: HandleException, info: SubscriptionInfo, a: Attempt, n: int): seq<Effect>
  {
    [Attempted(n)] + a.effects
      + (match a.outcome
         case Succeeded => []
         case Threw(e) => [Consulted(n, e, policy(e, n, info))])
  }

  function Segments(policy: HandleException, info: SubscriptionInfo, action: seq<Attempt>, first: int): seq<Effect>
    decreases |action|
  {
    if action == [] then []
    else Segment(policy, info, action[0], first) + Segments(policy, info, action[1..], first + 1)
  }

  /** The callback run when the loop stops after attempt number `n`. */
  function Callback(policy: HandleException, info: SubscriptionInfo, a: Attempt, n: int,
                    abort: Exception -> seq<Effect>, ignore: Option<seq<Effect>>): seq<Effect>
  {
    match a.outcome
    case Succeeded => []
    case Threw(e) =>
      match policy(e, n, info)
      case Abort => abort(e)
      case Ignore => if ignore.Some? then ignore.value else []
      case Retry => []
  }

  /** How the loop ends when it stops after attempt number `n`. */
  function Resolve(policy: HandleException, info: SubscriptionInfo, a: Attempt, n: int): Completion
  {
    match a.outcome
    case Succeeded => Completed
    case Threw(e) =>
      match policy(e, n, info)
      case Abort => Aborted(e)
      case Ignore => Ignored(e)
      case Retry => Unresolved
  }

  /**
   * The shape of every run: the attempts up to and including the one after which
   * the loop stops, each followed by its consultation when it threw, then exactly one
   * callback; nothing of the action runs after an Abort or an Ignore.
   */
  lemma {:induction false} RunShape(policy: HandleException, info: SubscriptionInfo, action: seq<Attempt>, first: int,
                                    abort: Exception -> seq<Effect>, ignore: Option<seq<Effect>>)
    ensures var k := StopIndex(policy, info, action, first);
            var run := PolicyRun(policy, info, action, first, abort, ignore);
            if k == |action| then
              run == Run(Segments(policy, info, action, first), Unresolved)
            else
              && run.effects == Segments(policy, info, action[..k + 1], first)
                                + Callback(policy, info, action[k], first + k, abort, ignore)
              && run.completion == Resolve(policy, info, action[k], first + k)
              && !run.completion.Unresolved?
  {
    var k := StopIndex(policy, info, action, first);
    if k < |action| {
      RunStopsAt(policy, info, action, first, abort, ignore, k);
    } else {
      RunUnresolved(policy, info, action, first, abort, ignore);
    }
  }

  /** Retried k times, then stopped: the k + 1 segments, then the callback. */
  lemma {:induction false} RunStopsAt(policy: HandleException, info: SubscriptionInfo, action: seq<Attempt>, first: int,
                                      abort: Exception -> seq<Effect>, ignore: Option<seq<Effect>>, k: nat)
    requires k < |action| && Retried(policy, info, action, first, k) && Stops(policy, info, action[k], first + k)
    ensures PolicyRun(policy, info, action, first, abort, ignore)
         == Run(Segments(policy, info, action[..k + 1], first) + Callback(policy, info, action[k], first + k, abort, ignore),
                Resolve(policy, info, action[k], first + k))
    decreases k
  {
    if k == 0 {
      SegmentsCons(policy, info, action, first, 1);
      PolicyRunStops(policy, info, action, first, abort, ignore);
      assert action[1..][..0] == [];
    } else {
      var tail := action[1..];
      forall i | 0 <= i < k - 1 ensures !Stops(policy, info, tail[i], first + 1 + i) {
        assert tail[i] == action[i + 1];
      }
      assert tail[k - 1] == action[k];
      RunStopsAt(policy, info, tail, first + 1, abort, ignore, k - 1);
      RetryThenStopsAt(policy, info, action, first, abort, ignore, k);
    }
  }

  /** One retried attempt in front of a run that stops after k - 1 more: the run stops after k. */
  lemma RetryThenStopsAt(policy: HandleException, info: SubscriptionInfo, action: seq<Attempt>, first: int,
                         abort: Exception -> seq<Effect>, ignore: Option<seq<Effect>>, k: nat)
    requires 0 < k < |action| && !Stops(policy, info, action[0], first)
    requires PolicyRun(policy, info, action[1..], first + 1, abort, ignore)
          == Run(Segments(policy, info, action[1..][..k], first + 1) + Callback(policy, info, action[1..][k - 1], first + k, abort, ignore),
                 Resolve(policy, info, action[1..][k - 1], first + k))
    ensures PolicyRun(policy, info, action, first, abort, ignore)
         == Run(Segments(policy, info, action[..k + 1], first) + Callback(policy, info, action[k], first + k, abort, ignore),
                Resolve(policy, info, action[k], first + k))
  {
    SegmentsCons(policy, info, action, first, k + 1);
    PolicyRunRetries(policy, info, action, first, abort, ignore);
    assert action[1..][k - 1] == action[k];
    var head := Segment(policy, info, action[0], first);
    var middle := Segments(policy, info, action[1..][..k], first + 1);
    var cb := Callback(policy, info, action[k], first + k, abort, ignore);
    assert head + (middle + cb) == (head + middle) + cb;
  }

  /** Retried on every attempt: all the segments, and no resolution. */
  lemma {:induction false} RunUnresolved(policy: HandleException, info: SubscriptionInfo, action: seq<Attempt>, first: int,
                                         abort: Exception -> seq<Effect>, ignore: Option<seq<Effect>>)
    requires Retried(policy, info, action, first, |action|)
    ensures PolicyRun(policy, info, action, first, abort, ignore) == Run(Segments(policy, info, action, first), Unresolved)
    decreases |action|
  {
    if action != [] {
      assert !Stops(policy, info, action[0], first);
      PolicyRunRetries(policy, info, action, first, abort, ignore);
      forall i | 0 <= i < |action| - 1 ensures !Stops(policy, info, action[1..][i], first + 1 + i) {
        assert action[1..][i] == action[i + 1];
      }
      RunUnresolved(policy, info, action[1..], first + 1, abort, ignore);
    }
  }

  /** An attempt after which the loop stops: its segment, then the callback. */
  lemma PolicyRunStops(policy: HandleException, info: SubscriptionInfo, action: seq<Attempt>, first: int,
                       abort: Exception -> seq<Effect>, ignore: Option<seq<Effect>>)
    requires action != [] && Stops(policy, info, action[0], first)
    ensures PolicyRun(policy, info, action, first, abort, ignore)
         == Run(Segment(policy, info, action[0], first) + Callback(policy, info, action[0], first, abort, ignore),
                Resolve(policy, info, action[0], first))
  {
  }

  /** An attempt answered with Retry: its segment, then the rest of the loop. */
  lemma PolicyRunRetries(policy: HandleException, info: SubscriptionInfo, action: seq<Attempt>, first: int,
                         abort: Exception -> seq<Effect>, ignore: Option<seq<Effect>>)
    requires action != [] && !Stops(policy, info, action[0], first)
    ensures var rest := PolicyRun(policy, info, action[1..], first + 1, abort, ignore);
            PolicyRun(policy, info, action, first, abort, ignore)
              == Run(Segment(policy, info, action[0], first) + rest.effects, rest.completion)
  {
  }

  lemma SegmentsCons(policy: HandleException, info: SubscriptionInfo, action: seq<Attempt>, first: int, m: nat)
    requires 1 <= m <= |action|
    ensures Segments(policy, info, action[..m], first)
         == Segment(policy, info, action[0], first) + Segments(policy, info, action[1..][..m - 1], first + 1)
  {
    assert action[..m][0] == action[0];
    assert action[..m][1..] == action[1..][..m - 1];
  }

  /** A retry count determines where the loop stops. */
  lemma RetriesThenStop(policy: HandleException, info: SubscriptionInfo, action: seq<Attempt>, first: int, k: nat)
    requires k < |action| && Retried(policy, info, action, first, k) && Stops(policy, info, action[k], first + k)
    ensures StopIndex(policy, info, action, first) == k
  {
  }

  /** No loop bookkeeping among these effects. */
  predicate Plain(es: seq<Effect>)
  {
    forall i :: 0 <= i < |es| ==> !es[i].Attempted? && !es[i].Consulted?
  }

  predicate PlainAction(action: seq<Attempt>)
  {
    forall i :: 0 <= i < |action| ==> Plain(action[i].effects)
  }

  /** The attempt numbers the loop recorded, in order. */
  function AttemptNumbers(es: seq<Effect>): seq<int>
  {
    if es == [] then []
    else (if es[0].Attempted? then [es[0].attempt] else []) + AttemptNumbers(es[1..])
  }

  /** The attempt numbers passed to the exception policy, in order. */
  function ConsultedNumbers(es: seq<Effect>): seq<int>
  {
    if es == [] then []
    else (if es[0].Consulted? then [es[0].attempt] else []) + ConsultedNumbers(es[1..])
  }

  lemma NumbersAppend(a: seq<Effect>, b: seq<Effect>)
    ensures AttemptNumbers(a + b) == AttemptNumbers(a) + AttemptNumbers(b)
    ensures ConsultedNumbers(a + b) == ConsultedNumbers(a) + ConsultedNumbers(b)
  {
    AttemptNumbersAppend(a, b);
    ConsultedNumbersAppend(a, b);
  }

  lemma {:induction false} AttemptNumbersAppend(a: seq<Effect>, b: seq<Effect>)
    ensures AttemptNumbers(a + b) == AttemptNumbers(a) + AttemptNumbers(b)
  {
    if a == [] {
      assert a + b == b;
    } else {
      assert (a + b)[0] == a[0];
      assert (a + b)[1..] == a[1..] + b;
      AttemptNumbersAppend(a[1..], b);
    }
  }

  lemma {:induction false} ConsultedNumbersAppend(a: seq<Effect>, b: seq<Effect>)
    ensures ConsultedNumbers(a + b) == ConsultedNumbers(a) + ConsultedNumbers(b)
  {
    if a == [] {
      assert a + b == b;
    } else {
      assert (a + b)[0] == a[0];
      assert (a + b)[1..] == a[1..] + b;
      ConsultedNumbersAppend(a[1..], b);
    }
  }

  lemma {:induction false} PlainHasNoNumbers(es: seq<Effect>)
    requires Plain(es)
    ensures AttemptNumbers(es) == [] && ConsultedNumbers(es) == []
  {
    if es != [] {
      PlainHasNoNumbers(es[1..]);
    }
  }

  /** One attempt records its own number, and passes it to the policy only when it threw. */
  lemma SegmentNumbers(policy: HandleException, info: SubscriptionInfo, a: Attempt, n: int)
    requires Plain(a.effects)
    ensures AttemptNumbers(Segment(policy, info, a, n)) == [n]
    ensures ConsultedNumbers(Segment(policy, info, a, n)) == (if a.outcome.Threw? then [n] else [])
  {
    var tail := match a.outcome
                case Succeeded => []
                case Threw(e) => [Consulted(n, e, policy(e, n, info))];
    assert Segment(policy, info, a, n) == [Attempted(n)] + a.effects + tail;
    PlainHasNoNumbers(a.effects);
    NumbersAppend([Attempted(n)], a.effects);
    NumbersAppend([Attempted(n)] + a.effects, tail);
    assert [Attempted(n)][1..] == [];
    if a.outcome.Threw? {
      assert tail[1..] == [];
    }
  }

  /**
   * Over attempts that all threw, the loop records attempt numbers first, first + 1, ...
   * and consults the policy with the same numbers, in the same order.
   */
  lemma {:induction false} SegmentsNumbers(policy: HandleException, info: SubscriptionInfo, action: seq<Attempt>, first: int)
    requires PlainAction(action)
    requires forall i :: 0 <= i < |action| ==> action[i].outcome.Threw?
    ensures AttemptNumbers(Segments(policy, info, action, first)) == Range(first, |action|)
    ensures ConsultedNumbers(Segments(policy, info, action, first)) == Range(first, |action|)
    decreases |action|
  {
    if action != [] {
      SegmentsNumbers(policy, info, action[1..], first + 1);
      SegmentNumbers(policy, info, action[0], first);
      NumbersAppend(Segment(policy, info, action[0], first), Segments(policy, info, action[1..], first + 1));
      RangeCons(first, |action|);
    }
  }

  /** The effects end with `t`. */
  predicate EndsWith(s: seq<Effect>, t: seq<Effect>)
  {
    |t| <= |s| && s[|s| - |t|..] == t
  }

  /**
   * Retry k times, then Abort or Ignore: the action ran exactly k + 1 times, with
   * attempt numbers 1 .. k + 1 passed to the policy in order, and the run ends
   * with the abort callback (on Abort) or the ignore callback if any (on Ignore).
   */
  lemma RetryThenGiveUp(policy: HandleException, info: SubscriptionInfo, action: seq<Attempt>,
                        abort: Exception -> seq<Effect>, ignore: Option<seq<Effect>>, k: nat)
    requires PlainAction(action) && (forall e :: Plain(abort(e))) && (ignore.Some? ==> Plain(ignore.value))
    requires k < |action| && Retried(policy, info, action, 1, k)
    requires action[k].outcome.Threw? && policy(action[k].outcome.error, k + 1, info) != Retry
    ensures var run := PolicyRun(policy, info, action, 1, abort, ignore);
            var e := action[k].outcome.error;
            && AttemptNumbers(run.effects) == Range(1, k + 1)
            && ConsultedNumbers(run.effects) == Range(1, k + 1)
            && (policy(e, k + 1, info) == Abort ==> run.completion == Aborted(e) && EndsWith(run.effects, abort(e)))
            && (policy(e, k + 1, info) == Ignore ==>
                  run.completion == Ignored(e) && (ignore.Some? ==> EndsWith(run.effects, ignore.value)))
  {
    RetriesThenStop(policy, info, action, 1, k);
    RunShape(policy, info, action, 1, abort, ignore);
    var cb := Callback(policy, info, action[k], 1 + k, abort, ignore);
    var done := action[..k + 1];
    forall i | 0 <= i < |done| ensures done[i].outcome.Threw? {
      if i < k {
        assert !Stops(policy, info, action[i], 1 + i);
      }
    }
    SegmentsNumbers(policy, info, done, 1);
    NumbersAppend(Segments(policy, info, done, 1), cb);
    PlainHasNoNumbers(cb);
  }

  /**
   * Success after k retries: the action ran exactly k + 1 times and the policy was
   * consulted for attempts 1 .. k only. With k = 0 the policy is never consulted.
   */
  lemma RetryThenSucceed(policy: HandleException, info: SubscriptionInfo, action: seq<Attempt>,
                         abort: Exception -> seq<Effect>, ignore: Option<seq<Effect>>, k: nat)
    requires PlainAction(action)
    requires k < |action| && Retried(policy, info, action, 1, k) && action[k].outcome.Succeeded?
    ensures var run := PolicyRun(policy, info, action, 1, abort, ignore);
            && run.completion == Completed
            && AttemptNumbers(run.effects) == Range(1, k + 1)
            && ConsultedNumbers(run.effects) == Range(1, k)
  {
    RetriesThenStop(policy, info, action, 1, k);
    RunShape(policy, info, action, 1, abort, ignore);
    SegmentsSnoc(policy, info, action, 1, k);
    forall i | 0 <= i < k ensures action[..k][i].outcome.Threw? {
      assert !Stops(policy, info, action[i], 1 + i);
    }
    SegmentsNumbers(policy, info, action[..k], 1);
    var before := Segments(policy, info, action[..k], 1);
    var last := Segment(policy, info, action[k], 1 + k);
    SegmentNumbers(policy, info, action[k], 1 + k);
    NumbersAppend(before, last);
    RangeSnoc(1, k);
    var run := PolicyRun(policy, info, action, 1, abort, ignore);
    assert Callback(policy, info, action[k], 1 + k, abort, ignore) == [];
    var done := Segments(policy, info, action[..k + 1], 1);
    assert done + [] == done;
    assert run.effects == before + last;
  }

  lemma {:induction false} SegmentsSplit(policy: HandleException, info: SubscriptionInfo, action: seq<Attempt>, first: int, k: nat)
    requires k <= |action|
    ensures Segments(policy, info, action, first)
         == Segments(policy, info, action[..k], first) + Segments(policy, info, action[k..], first + k)
    decreases k
  {
    if k > 0 {
      SegmentsSplit(policy, info, action[1..], first + 1, k - 1);
      assert action[1..][..k - 1] == action[..k][1..];
      assert action[1..][k - 1..] == action[k..];
    } else {
      assert action[..0] == [];
      assert action[0..] == action;
    }
  }

  lemma SegmentsSnoc(policy: HandleException, info: SubscriptionInfo, action: seq<Attempt>, first: int, k: nat)
    requires k < |action|
    ensures Segments(policy, info, action[..k + 1], first)
         == Segments(policy, info, action[..k], first) + Segment(policy, info, action[k], first + k)
  {
    var done := action[..k + 1];
    SegmentsSplit(policy, info, done, first, k);
    assert done[..k] == action[..k];
    assert done[k..] == [action[k]];
    assert [action[k]][1..] == [];
  }

  /** With the default policy the first exception aborts: one attempt, one consultation. */
  lemma DefaultPolicyAbortsAtOnce(info: SubscriptionInfo, action: seq<Attempt>,
                                  abort: Exception -> seq<Effect>, ignore: Option<seq<Effect>>)
    requires |action| > 0 && action[0].outcome.Threw?
    ensures var e := action[0].outcome.error;
            PolicyRun(DefaultExceptionHandler, info, action, 1, abort, ignore)
              == Run([Attempted(1)] + action[0].effects + [Consulted(1, e, Abort)] + abort(e), Aborted(e))
  {
  }

  // ---------------------------------------------------------------------------
  // The two uses of the loop.
  // ---------------------------------------------------------------------------

  /** Each attempt at handling a batch invokes the handler once. */
  function BatchAttempts(handler: Handler, batch: seq<Transaction>, info: SubscriptionInfo, outcomes: seq<Outcome>): seq<Attempt>
  {
    seq(|outcomes|, i requires 0 <= i < |outcomes| => Attempt([HandlerInvoked(handler, batch, info)], outcomes[i]))
  }

  /** Disposes the subscription, if there is one. */
  function DisposeOf(info: SubscriptionInfo): seq<Effect>
  {
    if info.subscription.Some? then [Disposed(info.subscription.value)] else []
  }

  /** Batch handling's abort callback: log fatally, then dispose the subscription. */
  function AbortBatch(info: SubscriptionInfo): Exception -> seq<Effect>
  {
    e => [FatalLogged(BatchAbortMessage, e)] + DisposeOf(info)
  }

  /** The request a restart re-subscribes with: from the beginning, same handler and options. */
  function Restarted(request: SubscriptionRequest): SubscriptionRequest
  {
    request.(from := None)
  }

  /**
   * Each restart attempt runs BeforeRestarting and, if that did not throw,
   * re-subscribes. The default no-op hook never throws, so it needs one attempt.
   */
  function RestartAttempts(request: SubscriptionRequest, hookOutcomes: seq<Outcome>): seq<Attempt>
  {
    var hook := request.options.beforeRestarting;
    var resubscribe := SubscriptionCreated(Restarted(request));
    if hook.NoOp? then [Attempt([HookRan(hook), resubscribe], Succeeded)]
    else
      seq(|hookOutcomes|, i requires 0 <= i < |hookOutcomes| =>
        Attempt([HookRan(hook)] + (if hookOutcomes[i].Succeeded? then [resubscribe] else []), hookOutcomes[i]))
  }

  /** The restart's abort callback only logs; its ignore callback re-subscribes. */
  function AbortRestart(): Exception -> seq<Effect>
  {
    e => [FatalLogged(RestartAbortMessage, e)]
  }

  function IgnoreRestart(request: SubscriptionRequest): Option<seq<Effect>>
  {
    Some([SubscriptionCreated(Restarted(request))])
  }

  /** What handling a batch does, under `policy`. */
  function BatchRun(policy: HandleException, info: SubscriptionInfo, handler: Handler,
                    batch: seq<Transaction>, outcomes: seq<Outcome>): Run
  {
    PolicyRun(policy, info, BatchAttempts(handler, batch, info, outcomes), 1, AbortBatch(info), None)
  }

  /** What handling the unknown-checkpoint signal does, under `policy`. */
  function UnknownCheckpointRun(policy: HandleException, info: SubscriptionInfo, request: SubscriptionRequest,
                                hookOutcomes: seq<Outcome>): Run
  {
    if !request.options.restartWhenAhead then Run([], Completed)
    else
      var run := PolicyRun(policy, info, RestartAttempts(request, hookOutcomes), 1, AbortRestart(), IgnoreRestart(request));
      Run(DisposeOf(info) + run.effects, run.completion)
  }

  predicate IsHandlerInvoked(e: Effect) { e.HandlerInvoked? }
  predicate IsDisposed(e: Effect) { e.Disposed? }
  predicate IsSubscriptionCreated(e: Effect) { e.SubscriptionCreated? }
  predicate IsHookRan(e: Effect) { e.HookRan? }

  lemma {:induction false} BatchSegmentsCounts(policy: HandleException, info: SubscriptionInfo, handler: Handler,
                                               batch: seq<Transaction>, outcomes: seq<Outcome>, first: int)
    ensures var s := Segments(policy, info, BatchAttempts(handler, batch, info, outcomes), first);
            Count(s, IsHandlerInvoked) == |outcomes| && Count(s, IsDisposed) == 0
    decreases |outcomes|
  {
    var action := BatchAttempts(handler, batch, info, outcomes);
    if outcomes != [] {
      assert action[1..] == BatchAttempts(handler, batch, info, outcomes[1..]);
      BatchSegmentsCounts(policy, info, handler, batch, outcomes[1..], first + 1);
      var seg := Segment(policy, info, action[0], first);
      var tail := if outcomes[0].Succeeded? then [] else [Consulted(first, outcomes[0].error, policy(outcomes[0].error, first, info))];
      assert seg == [Attempted(first), HandlerInvoked(handler, batch, info)] + tail;
      CountAppend(seg, Segments(policy, info, action[1..], first + 1), IsHandlerInvoked);
      CountAppend(seg, Segments(policy, info, action[1..], first + 1), IsDisposed);
      CountAppend([Attempted(first), HandlerInvoked(handler, batch, info)], tail, IsHandlerInvoked);
      CountAppend([Attempted(first), HandlerInvoked(handler, batch, info)], tail, IsDisposed);
    }
  }

  /**
   * Batch handling: the handler runs once per attempt made, and the subscription is
   * disposed exactly when the policy aborts (and there is a subscription to dispose);
   * after Ignore the subscription stays.
   */
  lemma BatchHandlingEffects(policy: HandleException, info: SubscriptionInfo, handler: Handler,
                             batch: seq<Transaction>, outcomes: seq<Outcome>)
    ensures var run := BatchRun(policy, info, handler, batch, outcomes);
            var k := StopIndex(policy, info, BatchAttempts(handler, batch, info, outcomes), 1);
            && Count(run.effects, IsHandlerInvoked) == (if k < |outcomes| then k + 1 else |outcomes|)
            && Count(run.effects, IsDisposed) == (if run.completion.Aborted? && info.subscription.Some? then 1 else 0)
  {
    var action := BatchAttempts(handler, batch, info, outcomes);
    var k := StopIndex(policy, info, action, 1);
    RunShape(policy, info, action, 1, AbortBatch(info), None);
    if k < |outcomes| {
      assert action[..k + 1] == BatchAttempts(handler, batch, info, outcomes[..k + 1]);
      BatchSegmentsCounts(policy, info, handler, batch, outcomes[..k + 1], 1);
      var cb := Callback(policy, info, action[k], 1 + k, AbortBatch(info), None);
      BatchCallbackCounts(policy, info, action[k], 1 + k);
      CountAppend(Segments(policy, info, action[..k + 1], 1), cb, IsHandlerInvoked);
      CountAppend(Segments(policy, info, action[..k + 1], 1), cb, IsDisposed);
    } else {
      BatchSegmentsCounts(policy, info, handler, batch, outcomes, 1);
    }
  }

  /** Batch handling's callbacks never run the handler, and dispose only on Abort. */
  lemma BatchCallbackCounts(policy: HandleException, info: SubscriptionInfo, a: Attempt, n: int)
    ensures var cb := Callback(policy, info, a, n, AbortBatch(info), None);
            && Count(cb, IsHandlerInvoked) == 0
            && Count(cb, IsDisposed) == (if Resolve(policy, info, a, n).Aborted? && info.subscription.Some? then 1 else 0)
  {
    if a.outcome.Threw? && policy(a.outcome.error, n, info) == Abort {
      var e := a.outcome.error;
      CountAppend([FatalLogged(BatchAbortMessage, e)], DisposeOf(info), IsHandlerInvoked);
      CountAppend([FatalLogged(BatchAbortMessage, e)], DisposeOf(info), IsDisposed);
    }
  }

  /**
   * The batch scenario with a policy that retries N times and then aborts: the
   * handler runs N + 1 times and the subscription is disposed once, at the end.
   */
  lemma RetryNTimesThenAbortBatch(policy: HandleException, info: SubscriptionInfo, handler: Handler,
                                  batch: seq<Transaction>, outcomes: seq<Outcome>, n: nat)
    requires n < |outcomes| && forall i :: 0 <= i <= n ==> outcomes[i].Threw?
    requires forall i :: 0 <= i < n ==> policy(outcomes[i].error, i + 1, info) == Retry
    requires policy(outcomes[n].error, n + 1, info) == Abort
    requires info.subscription.Some?
    ensures var run := BatchRun(policy, info, handler, batch, outcomes);
            && run.completion == Aborted(outcomes[n].error)
            && Count(run.effects, IsHandlerInvoked) == n + 1
            && Count(run.effects, IsDisposed) == 1
            && run.effects[|run.effects| - 1] == Disposed(info.subscription.value)
  {
    var action := BatchAttempts(handler, batch, info, outcomes);
    RetriesThenStop(policy, info, action, 1, n);
    BatchHandlingEffects(policy, info, handler, batch, outcomes);
    RunShape(policy, info, action, 1, AbortBatch(info), None);
    var e := outcomes[n].error;
    assert action[n].outcome == Threw(e);
    var cb := Callback(policy, info, action[n], 1 + n, AbortBatch(info), None);
    assert cb == [FatalLogged(BatchAbortMessage, e)] + [Disposed(info.subscription.value)];
    var segs := Segments(policy, info, action[..n + 1], 1);
    assert (segs + cb)[|segs + cb| - 1] == Disposed(info.subscription.value);
  }

  lemma {:induction false} RestartSegmentsCounts(policy: HandleException, info: SubscriptionInfo, request: SubscriptionRequest,
                                                 hookOutcomes: seq<Outcome>, first: int)
    requires request.options.beforeRestarting.Supplied?
    requires forall i :: 0 <= i < |hookOutcomes| ==> hookOutcomes[i].Threw?
    ensures var s := Segments(policy, info, RestartAttempts(request, hookOutcomes), first);
            Count(s, IsHookRan) == |hookOutcomes| && Count(s, IsSubscriptionCreated) == 0
    decreases |hookOutcomes|
  {
    var action := RestartAttempts(request, hookOutcomes);
    if hookOutcomes != [] {
      assert action[1..] == RestartAttempts(request, hookOutcomes[1..]);
      RestartSegmentsCounts(policy, info, request, hookOutcomes[1..], first + 1);
      var e := hookOutcomes[0].error;
      var hook := request.options.beforeRestarting;
      assert action[0].effects == [HookRan(hook)];
      var seg := Segment(policy, info, action[0], first);
      var consulted := [Consulted(first, e, policy(e, first, info))];
      assert seg == [Attempted(first), HookRan(hook)] + consulted;
      assert [Attempted(first), HookRan(hook)][1..] == [HookRan(hook)];
      CountAppend([Attempted(first), HookRan(hook)], consulted, IsHookRan);
      CountAppend([Attempted(first), HookRan(hook)], consulted, IsSubscriptionCreated);
      CountAppend(seg, Segments(policy, info, action[1..], first + 1), IsHookRan);
      CountAppend(seg, Segments(policy, info, action[1..], first + 1), IsSubscriptionCreated);
    }
  }

  lemma CountThree(a: Effect, b: Effect, c: Effect, p: Effect -> bool)
    ensures Count([a, b, c], p) == (if p(a) then 1 else 0) + (if p(b) then 1 else 0) + (if p(c) then 1 else 0)
  {
    assert [a, b, c][1..] == [b, c];
    assert [b, c][1..] == [c];
    assert [c][1..] == [];
    assert Count([c], p) == (if p(c) then 1 else 0);
    assert Count([b, c], p) == (if p(b) then 1 else 0) + Count([c], p);
  }

  /** All re-subscriptions among these effects start from the beginning with the request's handler and options. */
  predicate OnlyRestarts(es: seq<Effect>, request: SubscriptionRequest)
  {
    forall i :: 0 <= i < |es| && es[i].SubscriptionCreated? ==> es[i].request == Restarted(request)
  }

  lemma OnlyRestartsAppend(a: seq<Effect>, b: seq<Effect>, request: SubscriptionRequest)
    requires OnlyRestarts(a, request) && OnlyRestarts(b, request)
    ensures OnlyRestarts(a + b, request)
  {
    forall i | 0 <= i < |a + b| && (a + b)[i].SubscriptionCreated? ensures (a + b)[i].request == Restarted(request) {
      if i >= |a| {
        assert (a + b)[i] == b[i - |a|];
      }
    }
  }

  /** A restart attempt with a supplied hook runs the hook once and re-subscribes only if the hook did not throw. */
  lemma RestartSegmentCounts(policy: HandleException, info: SubscriptionInfo, request: SubscriptionRequest,
                             hookOutcomes: seq<Outcome>, i: nat)
    requires request.options.beforeRestarting.Supplied? && i < |hookOutcomes|
    ensures var seg := Segment(policy, info, RestartAttempts(request, hookOutcomes)[i], 1 + i);
            && Count(seg, IsHookRan) == 1
            && Count(seg, IsSubscriptionCreated) == (if hookOutcomes[i].Succeeded? then 1 else 0)
            && OnlyRestarts(seg, request)
  {
    var hook := request.options.beforeRestarting;
    var o := hookOutcomes[i];
    var a := RestartAttempts(request, hookOutcomes)[i];
    var seg := Segment(policy, info, a, 1 + i);
    var resubscribe := SubscriptionCreated(Restarted(request));
    if o.Succeeded? {
      assert seg == [Attempted(1 + i), HookRan(hook), resubscribe];
      CountThree(Attempted(1 + i), HookRan(hook), resubscribe, IsHookRan);
      CountThree(Attempted(1 + i), HookRan(hook), resubscribe, IsSubscriptionCreated);
    } else {
      var c := Consulted(1 + i, o.error, policy(o.error, 1 + i, info));
      assert seg == [Attempted(1 + i), HookRan(hook), c];
      CountThree(Attempted(1 + i), HookRan(hook), c, IsHookRan);
      CountThree(Attempted(1 + i), HookRan(hook), c, IsSubscriptionCreated);
    }
  }

  /** The restart's callback: Ignore re-subscribes once; Abort only logs. */
  lemma RestartCallbackCounts(policy: HandleException, info: SubscriptionInfo, request: SubscriptionRequest, a: Attempt, n: int)
    ensures var cb := Callback(policy, info, a, n, AbortRestart(), IgnoreRestart(request));
            && Count(cb, IsHookRan) == 0
            && Count(cb, IsSubscriptionCreated) == (if Resolve(policy, info, a, n).Ignored? then 1 else 0)
            && OnlyRestarts(cb, request)
  {
  }

  /** The restart loop itself, after a supplied hook stopped at attempt k + 1. */
  lemma RestartStopsCounts(policy: HandleException, info: SubscriptionInfo, request: SubscriptionRequest,
                           hookOutcomes: seq<Outcome>)
    requires request.options.beforeRestarting.Supplied?
    requires StopIndex(policy, info, RestartAttempts(request, hookOutcomes), 1) < |hookOutcomes|
    ensures var action := RestartAttempts(request, hookOutcomes);
            var k := StopIndex(policy, info, action, 1);
            var inner := PolicyRun(policy, info, action, 1, AbortRestart(), IgnoreRestart(request));
            && Count(inner.effects, IsHookRan) == k + 1
            && Count(inner.effects, IsSubscriptionCreated) == (if inner.completion.Completed? || inner.completion.Ignored? then 1 else 0)
            && OnlyRestarts(inner.effects, request)
  {
    var action := RestartAttempts(request, hookOutcomes);
    var k := StopIndex(policy, info, action, 1);
    RunShape(policy, info, action, 1, AbortRestart(), IgnoreRestart(request));
    var done := Segments(policy, info, action[..k + 1], 1);
    var cb := Callback(policy, info, action[k], 1 + k, AbortRestart(), IgnoreRestart(request));
    RestartPrefixCounts(policy, info, request, hookOutcomes, k);
    RestartCallbackCounts(policy, info, request, action[k], 1 + k);
    CountAppend(done, cb, IsHookRan);
    CountAppend(done, cb, IsSubscriptionCreated);
    OnlyRestartsAppend(done, cb, request);
  }

  /** The restart attempts up to the one after which the loop stops. */
  lemma RestartPrefixCounts(policy: HandleException, info: SubscriptionInfo, request: SubscriptionRequest,
                            hookOutcomes: seq<Outcome>, k: nat)
    requires request.options.beforeRestarting.Supplied?
    requires k < |hookOutcomes| && Retried(policy, info, RestartAttempts(request, hookOutcomes), 1, k)
    ensures var s := Segments(policy, info, RestartAttempts(request, hookOutcomes)[..k + 1], 1);
            && Count(s, IsHookRan) == k + 1
            && Count(s, IsSubscriptionCreated) == (if hookOutcomes[k].Succeeded? then 1 else 0)
            && OnlyRestarts(s, request)
  {
    var action := RestartAttempts(request, hookOutcomes);
    SegmentsSnoc(policy, info, action, 1, k);
    assert action[..k] == RestartAttempts(request, hookOutcomes[..k]);
    forall i | 0 <= i < k ensures hookOutcomes[..k][i].Threw? {
      assert !Stops(policy, info, action[i], 1 + i);
    }
    RestartSegmentsCounts(policy, info, request, hookOutcomes[..k], 1);
    var before := Segments(policy, info, action[..k], 1);
    var last := Segment(policy, info, action[k], 1 + k);
    NoCreatedIn(before);
    RestartSegmentCounts(policy, info, request, hookOutcomes, k);
    CountAppend(before, last, IsHookRan);
    CountAppend(before, last, IsSubscriptionCreated);
    OnlyRestartsAppend(before, last, request);
  }

  /**
   * Unknown checkpoint with RestartWhenAhead: the subscription is disposed before the
   * hook first runs; the hook runs once per attempt; success and Ignore each lead to
   * exactly one re-subscription, Abort to none; every re-subscription starts from the
   * beginning with the same handler and options.
   */
  lemma RestartEffects(policy: HandleException, info: SubscriptionInfo, request: SubscriptionRequest,
                       hookOutcomes: seq<Outcome>)
    requires request.options.restartWhenAhead
    ensures var run := UnknownCheckpointRun(policy, info, request, hookOutcomes);
            var action := RestartAttempts(request, hookOutcomes);
            var k := StopIndex(policy, info, action, 1);
            && run.effects[..|DisposeOf(info)|] == DisposeOf(info)
            && Count(run.effects, IsHookRan) == (if k < |action| then k + 1 else |action|)
            && Count(run.effects, IsSubscriptionCreated)
                 == (if run.completion.Completed? || run.completion.Ignored? then 1 else 0)
            && OnlyRestarts(run.effects, request)
  {
    var action := RestartAttempts(request, hookOutcomes);
    var k := StopIndex(policy, info, action, 1);
    var inner := PolicyRun(policy, info, action, 1, AbortRestart(), IgnoreRestart(request));
    CountAppend(DisposeOf(info), inner.effects, IsHookRan);
    CountAppend(DisposeOf(info), inner.effects, IsSubscriptionCreated);
    var hook := request.options.beforeRestarting;
    if hook.NoOp? {
      var resubscribe := SubscriptionCreated(Restarted(request));
      assert inner.effects == [Attempted(1), HookRan(hook), resubscribe];
      CountThree(Attempted(1), HookRan(hook), resubscribe, IsHookRan);
      CountThree(Attempted(1), HookRan(hook), resubscribe, IsSubscriptionCreated);
    } else if k < |action| {
      RestartStopsCounts(policy, info, request, hookOutcomes);
    } else {
      RunShape(policy, info, action, 1, AbortRestart(), IgnoreRestart(request));
      forall i | 0 <= i < |hookOutcomes| ensures hookOutcomes[i].Threw? {
        assert !Stops(policy, info, action[i], 1 + i);
      }
      RestartSegmentsCounts(policy, info, request, hookOutcomes, 1);
      NoCreatedIn(inner.effects);
    }
    OnlyRestartsAppend(DisposeOf(info), inner.effects, request);
  }

  lemma NoCreatedIn(es: seq<Effect>)
    requires Count(es, IsSubscriptionCreated) == 0
    ensures forall i :: 0 <= i < |es| ==> !es[i].SubscriptionCreated?
  {
    if es != [] {
      NoCreatedIn(es[1..]);
      forall i | 0 < i < |es| ensures !es[i].SubscriptionCreated? {
        assert es[i] == es[1..][i - 1];
      }
    }
  }

  /** Without RestartWhenAhead the unknown-checkpoint signal does nothing at all. */
  lemma NoRestartWhenNotAhead(policy: HandleException, info: SubscriptionInfo, request: SubscriptionRequest,
                              hookOutcomes: seq<Outcome>)
    requires !request.options.restartWhenAhead
    ensures UnknownCheckpointRun(policy, info, request, hookOutcomes).effects == []
  {
  }

  /** The loop from the attempt at index `n` on. */
  function Rest(policy: HandleException, info: SubscriptionInfo, action: seq<Attempt>, n: nat,
                abort: Exception -> seq<Effect>, ignore: Option<seq<Effect>>): Run
    requires n <= |action|
  {
    PolicyRun(policy, info, action[n..], n + 1, abort, ignore)
  }

  lemma RestUnfolds(policy: HandleException, info: SubscriptionInfo, action: seq<Attempt>, n: nat,
                    abort: Exception -> seq<Effect>, ignore: Option<seq<Effect>>)
    requires n < |action|
    ensures var a := action[n];
            var seg := Segment(policy, info, a, n + 1);
            var rest := Rest(policy, info, action, n + 1, abort, ignore);
            Rest(policy, info, action, n, abort, ignore)
              == if Stops(policy, info, a, n + 1)
                 then Run(seg + Callback(policy, info, a, n + 1, abort, ignore), Resolve(policy, info, a, n + 1))
                 else Run(seg + rest.effects, rest.completion)
  {
    assert action[n..][0] == action[n];
    assert action[n..][1..] == action[n + 1..];
    if Stops(policy, info, action[n], n + 1) {
      PolicyRunStops(policy, info, action[n..], n + 1, abort, ignore);
    } else {
      PolicyRunRetries(policy, info, action[n..], n + 1, abort, ignore);
    }
  }

  // ---------------------------------------------------------------------------
  // The dispatcher object.
  // ---------------------------------------------------------------------------

  class Dispatcher {
    /** The exception policy; callers may replace it. */
    var exceptionHandler: HandleException
    /** Everything the dispatcher has done to the outside world, in order. */
    var effects: seq<Effect>

    constructor ()
      ensures exceptionHandler == DefaultExceptionHandler && effects == []
    {
      exceptionHandler := DefaultExceptionHandler;
      effects := [];
    }

    /**
     * Rejects a missing handler; replaces missing options by the defaults; asks the
     * subscription factory for a subscription.
     */
    method Subscribe(lastProcessedCheckpoint: Option<int>, handler: Option<Handler>,
                     options: Option<SubscriptionOptions>)
      returns (r: Result<SubscriptionRequest, ArgumentError>)
      modifies this`effects
      ensures handler.None? ==> r == Err(ArgumentNull("handler")) && effects == old(effects)
      ensures handler.Some? ==>
                && r == Ok(SubscriptionRequest(lastProcessedCheckpoint, handler.value,
                                               if options.Some? then options.value else DefaultOptions))
                && effects == old(effects) + [SubscriptionCreated(r.value)]
    {
      var opts := if options.None? then DefaultOptions else options.value;
      if handler.None? {
        return Err(ArgumentNull("handler"));
      }
      var request := SubscriptionRequest(lastProcessedCheckpoint, handler.value, opts);
      effects := effects + [SubscriptionCreated(request)];
      r := Ok(request);
    }

    /** The do-while resolution loop around `action`. */
    method ExecuteWithPolicy(info: SubscriptionInfo, action: seq<Attempt>,
                             abort: Exception -> seq<Effect>, ignore: Option<seq<Effect>>)
      returns (completion: Completion)
      modifies this`effects
      ensures var run := PolicyRun(exceptionHandler, info, action, 1, abort, ignore);
              effects == old(effects) + run.effects && completion == run.completion
    {
      var policy := exceptionHandler;
      var attempts := 0;
      var retry := true;
      completion := Unresolved;
      ghost var whole := PolicyRun(policy, info, action, 1, abort, ignore);
      while retry && attempts < |action|
        invariant 0 <= attempts <= |action|
        invariant retry ==> completion == Unresolved
        invariant retry ==> old(effects) + whole.effects == effects + Rest(policy, info, action, attempts, abort, ignore).effects
        invariant retry ==> whole.completion == Rest(policy, info, action, attempts, abort, ignore).completion
        invariant !retry ==> effects == old(effects) + whole.effects && completion == whole.completion
        decreases |action| - attempts, retry
      {
        RestUnfolds(policy, info, action, attempts, abort, ignore);
        attempts := attempts + 1;
        var attempt := action[attempts - 1];
        var step := [Attempted(attempts)] + attempt.effects;
        match attempt.outcome {
          case Succeeded =>
            retry := false;
            completion := Completed;
          case Threw(e) =>
            var resolution := policy(e, attempts, info);
            step := step + [Consulted(attempts, e, resolution)];
            match resolution {
              case Abort =>
                step := step + abort(e);
                retry := false;
                completion := Aborted(e);
              case Retry =>
              case Ignore =>
                retry := false;
                if ignore.Some? {
                  step := step + ignore.value;
                }
                completion := Ignored(e);
            }
        }
        effects := effects + step;
      }
      if retry {
        assert action[attempts..] == [];
      }
    }

    /** Runs the handler on a batch under the policy; Abort disposes the subscription. */
    method HandleTransactions(transactions: seq<Transaction>, handler: Handler, info: SubscriptionInfo,
                              outcomes: seq<Outcome>)
      returns (completion: Completion)
      modifies this`effects
      ensures var run := BatchRun(exceptionHandler, info, handler, transactions, outcomes);
              effects == old(effects) + run.effects && completion == run.completion
    {
      completion := ExecuteWithPolicy(info, BatchAttempts(handler, transactions, info, outcomes), AbortBatch(info), None);
    }

    /**
     * On the unknown-checkpoint signal, when RestartWhenAhead is set: dispose the
     * subscription, then run BeforeRestarting and re-subscribe from the beginning
     * under the policy; Ignore re-subscribes too, Abort only logs.
     */
    method HandleUnknownCheckpoint(info: SubscriptionInfo, request: SubscriptionRequest, hookOutcomes: seq<Outcome>)
      returns (completion: Completion)
      modifies this`effects
      ensures var run := UnknownCheckpointRun(exceptionHandler, info, request, hookOutcomes);
              effects == old(effects) + run.effects && completion == run.completion
    {
      completion := Completed;
      if request.options.restartWhenAhead {
        effects := effects + DisposeOf(info);
        completion := ExecuteWithPolicy(info, RestartAttempts(request, hookOutcomes), AbortRestart(), IgnoreRestart(request));
      }
    }
  }
}
