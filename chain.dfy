/**
 * Reference semantics of a `Thrown` chain, as pure functions: the state a
 * dispatcher is in after a sequence of `catch` / `catchPredicate` calls, and
 * what the terminal `catchAny` / `rethrowUncaught` call does with it.
 *
 * The callbacks the dispatcher makes (predicates and handlers) are recorded
 * in a log of events instead of being run; that log is all a caller can
 * observe of them.
 */
module Chain {
  import opened Values

  datatype Option<+T> = None | Some(value: T)

  type HandlerId = nat
  type PredicateId = nat

  /** A callback made by the dispatcher, with the value it was passed. */
  datatype Event =
    | PredicateCalled(pred: PredicateId, arg: Value)
    | HandlerCalled(handler: HandlerId, arg: Value)

  /** A user predicate: its identity and the answer it gives for each value. */
  datatype Predicate = Predicate(id: PredicateId, test: Value -> bool)

  /** The test of one match attempt: `catch(ctor, _)` or `catchPredicate(p, _)`. */
  datatype Matcher =
    | ByConstructor(ctor: ClassName)
    | ByPredicate(pred: Predicate)

  /** One match attempt of a chain: a test and the handler to call on a match. */
  datatype Attempt = Attempt(matcher: Matcher, handler: HandlerId)

  /** The observable state of a dispatcher: the `caught` flag and the callbacks made so far. */
  datatype State = State(caught: bool, log: seq<Event>)

  /** How a terminal call ends: normally, or by throwing a value. */
  datatype Outcome = Returned | Threw(thrown: Value)

  /** The call that ends a chain, if any. */
  datatype Terminal =
    | CatchAny(handler: HandlerId)
    | RethrowUncaught(override: Value)
    | Unterminated

  /** Everything a finished chain leaves behind. */
  datatype Resolution = Resolution(caught: bool, log: seq<Event>, outcome: Outcome)

  /** The state of a freshly constructed dispatcher. */
  const Initial := State(false, [])

  /** Whether a test accepts the wrapped value. */
  predicate Matches(m: Matcher, err: Value)
  {
    match m
    case ByConstructor(c) => InstanceOf(err, c)
    case ByPredicate(p) => p.test(err)
  }

  /** The callbacks evaluating a test makes: a predicate is called, `instanceof` calls nothing. */
  function Probe(m: Matcher, err: Value): seq<Event>
  {
    match m
    case ByConstructor(_) => []
    case ByPredicate(p) => [PredicateCalled(p.id, err)]
  }

  /** One `catch` / `catchPredicate` call. */
  function Step(err: Value, s: State, a: Attempt): State
  {
    if s.caught then s
    else if Matches(a.matcher, err) then
      State(true, s.log + Probe(a.matcher, err) + [HandlerCalled(a.handler, err)])
    else
      State(false, s.log + Probe(a.matcher, err))
  }

  /** The state after the attempts of a chain, made in order on a fresh dispatcher. */
  function Run(err: Value, attempts: seq<Attempt>): State
    decreases |attempts|
  {
    if attempts == [] then Initial
    else Step(err, Run(err, attempts[..|attempts| - 1]), attempts[|attempts| - 1])
  }

  /** The index of the earliest attempt whose test accepts `err`, if any. */
  function FirstMatch(err: Value, attempts: seq<Attempt>): (r: Option<nat>)
    ensures r.Some? ==> r.value < |attempts| && Matches(attempts[r.value].matcher, err)
    ensures forall j :: 0 <= j < |attempts| && (r.None? || j < r.value) ==>
      !Matches(attempts[j].matcher, err)
    decreases |attempts|
  {
    if attempts == [] then None
    else if Matches(attempts[0].matcher, err) then Some(0)
    else
      match FirstMatch(err, attempts[1..])
      case None => None
      case Some(i) => Some(i + 1)
  }

  /** The callbacks made by evaluating the tests of all the given attempts, in order. */
  function Probes(err: Value, attempts: seq<Attempt>): seq<Event>
    decreases |attempts|
  {
    if attempts == [] then []
    else Probes(err, attempts[..|attempts| - 1]) + Probe(attempts[|attempts| - 1].matcher, err)
  }

  /** The handler calls of a log, in order: exactly its `HandlerCalled` events. */
  function HandlerCalls(log: seq<Event>): (r: seq<Event>)
    ensures |r| <= |log|
    ensures forall e :: e in r <==> e in log && e.HandlerCalled?
    decreases |log|
  {
    if log == [] then []
    else (if log[0].HandlerCalled? then [log[0]] else []) + HandlerCalls(log[1..])
  }

  /** `catchAny(h)`: calls `h` unless something matched; `caught` is left alone. */
  function CatchAnyStep(err: Value, s: State, h: HandlerId): State
  {
    if s.caught then s else State(s.caught, s.log + [HandlerCalled(h, err)])
  }

  /** `rethrowUncaught(override)`: throws `override ?? err` unless something matched. */
  function RethrowOutcome(err: Value, s: State, override: Value): Outcome
  {
    if s.caught then Returned else Threw(Coalesce(override, err))
  }

  /** A whole chain: the attempts on a fresh dispatcher, then the terminal call. */
  function Dispatch(err: Value, attempts: seq<Attempt>, terminal: Terminal): Resolution
  {
    var s := Run(err, attempts);
    match terminal
    case Unterminated => Resolution(s.caught, s.log, Returned)
    case CatchAny(h) =>
      var t := CatchAnyStep(err, s, h);
      Resolution(t.caught, t.log, Returned)
    case RethrowUncaught(o) => Resolution(s.caught, s.log, RethrowOutcome(err, s, o))
  }

  // ---------------------------------------------------------------------------
  // Properties of a chain of match attempts
  // ---------------------------------------------------------------------------

  /** Adding one attempt to a chain: an earlier match stays the first one. */
  lemma {:induction false} FirstMatchSnoc(err: Value, attempts: seq<Attempt>)
    requires attempts != []
    ensures var n := |attempts|;
      FirstMatch(err, attempts) ==
        match FirstMatch(err, attempts[..n - 1])
        case Some(i) => Some(i)
        case None => if Matches(attempts[n - 1].matcher, err) then Some(n - 1) else None
    decreases |attempts|
  {
    var n := |attempts|;
    var pre := attempts[..n - 1];
    if n > 1 && !Matches(attempts[0].matcher, err) {
      assert pre[0] == attempts[0];
      assert pre[1..] == attempts[1..][..n - 2];
      FirstMatchSnoc(err, attempts[1..]);
    } else if n > 1 {
      assert pre[0] == attempts[0];
    }
  }

  /**
   * The whole state after a chain, in terms of its first match: the tests of
   * every attempt up to and including the first match are evaluated, none
   * after it, and exactly the first matching attempt's handler is called,
   * with the wrapped value. Without a match, every test is evaluated and no
   * handler is called.
   */
  lemma {:induction false} RunFollowsFirstMatch(err: Value, attempts: seq<Attempt>)
    ensures Run(err, attempts) ==
      match FirstMatch(err, attempts)
      case None => State(false, Probes(err, attempts))
      case Some(i) =>
        State(true, Probes(err, attempts[..i + 1]) + [HandlerCalled(attempts[i].handler, err)])
    decreases |attempts|
  {
    if attempts != [] {
      var n := |attempts|;
      var pre := attempts[..n - 1];
      RunFollowsFirstMatch(err, pre);
      FirstMatchSnoc(err, attempts);
      match FirstMatch(err, pre)
      case Some(i) =>
        assert attempts[..i + 1] == pre[..i + 1];
      case None =>
        assert attempts[..n] == attempts;
    }
  }

  lemma {:induction false} HandlerCallsAppend(a: seq<Event>, b: seq<Event>)
    ensures HandlerCalls(a + b) == HandlerCalls(a) + HandlerCalls(b)
    decreases |a|
  {
    if a != [] {
      assert (a + b)[0] == a[0];
      assert (a + b)[1..] == a[1..] + b;
      HandlerCallsAppend(a[1..], b);
    } else {
      assert a + b == b;
    }
  }

  /** Evaluating tests never calls a handler. */
  lemma {:induction false} ProbesCallNoHandler(err: Value, attempts: seq<Attempt>)
    ensures HandlerCalls(Probes(err, attempts)) == []
    decreases |attempts|
  {
    if attempts != [] {
      var n := |attempts|;
      ProbesCallNoHandler(err, attempts[..n - 1]);
      HandlerCallsAppend(Probes(err, attempts[..n - 1]), Probe(attempts[n - 1].matcher, err));
    }
  }

  /**
   * First match wins: a chain calls at most one handler, and that is the
   * handler of the earliest attempt whose test accepts the wrapped value,
   * called with that value; `caught` is set exactly when some attempt matched.
   */
  lemma FirstMatchWins(err: Value, attempts: seq<Attempt>)
    ensures Run(err, attempts).caught <==>
      exists j :: 0 <= j < |attempts| && Matches(attempts[j].matcher, err)
    ensures HandlerCalls(Run(err, attempts).log) ==
      match FirstMatch(err, attempts)
      case None => []
      case Some(i) => [HandlerCalled(attempts[i].handler, err)]
  {
    RunFollowsFirstMatch(err, attempts);
    match FirstMatch(err, attempts)
    case None =>
      ProbesCallNoHandler(err, attempts);
    case Some(i) =>
      var probes := Probes(err, attempts[..i + 1]);
      ProbesCallNoHandler(err, attempts[..i + 1]);
      HandlerCallsAppend(probes, [HandlerCalled(attempts[i].handler, err)]);
      assert HandlerCalls([HandlerCalled(attempts[i].handler, err)]) == [HandlerCalled(attempts[i].handler, err)];
  }

  /**
   * Once caught, further attempts are no-ops: their tests are not evaluated,
   * no handler is called and the state does not change.
   */
  lemma {:induction false} CaughtAbsorbs(err: Value, attempts: seq<Attempt>, rest: seq<Attempt>)
    requires Run(err, attempts).caught
    ensures Run(err, attempts + rest) == Run(err, attempts)
    decreases |rest|
  {
    if rest == [] {
      assert attempts + rest == attempts;
    } else {
      var n := |rest|;
      var all := attempts + rest;
      assert all[..|all| - 1] == attempts + rest[..n - 1];
      CaughtAbsorbs(err, attempts, rest[..n - 1]);
    }
  }

  /**
   * `caught` never goes back from true to false along a chain, and the
   * callbacks already made stay made: the state after a prefix of a chain
   * is caught only if the state after the whole chain is, and its log is a
   * prefix of the whole chain's log.
   */
  lemma {:induction false} RunMonotone(err: Value, attempts: seq<Attempt>, k: nat)
    requires k <= |attempts|
    ensures Run(err, attempts[..k]).caught ==> Run(err, attempts).caught
    ensures Run(err, attempts[..k]).log <= Run(err, attempts).log
    decreases |attempts| - k
  {
    var n := |attempts|;
    if k == n {
      assert attempts[..k] == attempts;
    } else {
      var pre := attempts[..n - 1];
      assert pre[..k] == attempts[..k];
      RunMonotone(err, pre, k);
    }
  }

  // ---------------------------------------------------------------------------
  // Properties of the terminal calls
  // ---------------------------------------------------------------------------

  /**
   * A chain ended by `rethrowUncaught(o)` never drops the error: it either
   * called exactly one handler and returns, or called none and throws `o`
   * when `o` is neither null nor undefined, and the wrapped value itself
   * otherwise.
   */
  lemma RethrowResolves(err: Value, attempts: seq<Attempt>, o: Value)
    ensures var r := Dispatch(err, attempts, RethrowUncaught(o));
      (r.outcome == Returned <==> |HandlerCalls(r.log)| == 1) &&
      (r.outcome.Threw? <==> HandlerCalls(r.log) == []) &&
      (r.outcome.Threw? && !IsNullish(o) ==> r.outcome.thrown == o) &&
      (r.outcome.Threw? && IsNullish(o) ==> r.outcome.thrown == err)
  {
    FirstMatchWins(err, attempts);
    RunFollowsFirstMatch(err, attempts);
  }

  /**
   * A chain ended by `catchAny(h)` calls exactly one handler and returns:
   * the first matching attempt's handler if there is one, `h` otherwise,
   * always with the wrapped value. It leaves `caught` as the attempts set it.
   */
  lemma CatchAnyResolves(err: Value, attempts: seq<Attempt>, h: HandlerId)
    ensures var r := Dispatch(err, attempts, CatchAny(h));
      r.outcome == Returned &&
      r.caught == Run(err, attempts).caught &&
      HandlerCalls(r.log) ==
        match FirstMatch(err, attempts)
        case Some(i) => [HandlerCalled(attempts[i].handler, err)]
        case None => [HandlerCalled(h, err)]
  {
    var s := Run(err, attempts);
    FirstMatchWins(err, attempts);
    RunFollowsFirstMatch(err, attempts);
    if !s.caught {
      HandlerCallsAppend(s.log, [HandlerCalled(h, err)]);
      assert HandlerCalls([HandlerCalled(h, err)]) == [HandlerCalled(h, err)];
    }
  }

  /**
   * `catchAny` does not mark the error as caught, so a `rethrowUncaught`
   * after it behaves as if it had not been called.
   */
  lemma CatchAnyKeepsRethrow(err: Value, s: State, h: HandlerId, o: Value)
    ensures CatchAnyStep(err, s, h).caught == s.caught
    ensures RethrowOutcome(err, CatchAnyStep(err, s, h), o) == RethrowOutcome(err, s, o)
  {
  }

  /**
   * A chain with no terminal call never throws: when nothing matched, the
   * error is silently dropped and no handler was called.
   */
  lemma UnterminatedDrops(err: Value, attempts: seq<Attempt>)
    ensures var r := Dispatch(err, attempts, Unterminated);
      r.outcome == Returned &&
      (!r.caught ==> HandlerCalls(r.log) == [])
  {
    FirstMatchWins(err, attempts);
  }
}
