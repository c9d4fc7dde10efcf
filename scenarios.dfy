/**
 * The usage scenarios of the dispatcher's test suite, replayed on the
 * model. Each method builds the chain the scenario builds and states what
 * the scenario checks: which handler ran with which value, and whether and
 * what was thrown.
 */
module ThrownScenarios {
  import opened Values
  import opened Chain
  import opened ErrorDispatch

  /** `new MyError()`: `class MyError` does not extend `Error`. */
  const MyErrorInstance := Object(1, ["MyError", "Object"])
  /** `new MyOtherError()`: `class MyOtherError extends Error`. */
  const MyOtherErrorInstance := Object(2, ["MyOtherError", "Error", "Object"])
  /** `new Error('foobar')`. */
  const FoobarError := Object(3, ["Error", "Object"])
  /** `new Error('overridden')`. */
  const OverridingError := Object(4, ["Error", "Object"])
  /** The plain object `{ foo: 'bar' }`. */
  const FooBar := Object(5, ["Object"])

  /** The shared `noop` handler, and the handlers that record a message. */
  const Noop: HandlerId := 0
  const OnMyError: HandlerId := 1
  const OnMyOtherError: HandlerId := 2
  const OnError: HandlerId := 3
  const OnAny: HandlerId := 4
  const OnCustom: HandlerId := 5

  /** One matching `catch`, then `rethrowUncaught()`: the handler runs once, nothing is thrown. */
  method CatchOneSpecificError() returns (log: seq<Event>, outcome: Outcome)
    ensures log == [HandlerCalled(OnMyError, MyErrorInstance)]
    ensures outcome == Returned
  {
    var t := ThrownOf(MyErrorInstance);
    t := t.Catch("MyError", OnMyError);
    outcome := t.RethrowUncaught();
    log := t.log;
  }

  /**
   * `MyError`, `MyOtherError`, then `Error`: the value is an instance of the
   * last two, and only the earlier one's handler runs.
   */
  method CatchFirstOfSeveral() returns (log: seq<Event>, outcome: Outcome)
    ensures log == [HandlerCalled(OnMyOtherError, MyOtherErrorInstance)]
    ensures outcome == Returned
  {
    var t := ThrownOf(MyOtherErrorInstance);
    t := t.Catch("MyError", OnMyError);
    t := t.Catch("MyOtherError", OnMyOtherError);
    t := t.Catch("Error", OnError);
    outcome := t.RethrowUncaught();
    log := t.log;
  }

  /** Nothing matches: `rethrowUncaught()` throws the very value that was wrapped. */
  method RethrowUnmatched() returns (log: seq<Event>, outcome: Outcome)
    ensures log == []
    ensures outcome == Threw(FoobarError)
  {
    var t := ThrownOf(FoobarError);
    t := t.Catch("MyError", Noop);
    t := t.Catch("MyOtherError", Noop);
    outcome := t.RethrowUncaught();
    log := t.log;
  }

  /** Nothing matches: `rethrowUncaught(e)` throws `e` instead. */
  method RethrowOverride() returns (log: seq<Event>, outcome: Outcome)
    ensures log == []
    ensures outcome == Threw(OverridingError)
  {
    var t := ThrownOf(FoobarError);
    t := t.Catch("MyError", Noop);
    t := t.Catch("MyOtherError", Noop);
    outcome := t.RethrowUncaught(OverridingError);
    log := t.log;
  }

  /** Nothing matches: `catchAny` receives the wrapped value, and nothing is thrown. */
  method CatchAnyUnmatched() returns (log: seq<Event>)
    ensures log == [HandlerCalled(OnAny, FoobarError)]
  {
    var t := ThrownOf(FoobarError);
    t := t.Catch("MyError", Noop);
    t := t.Catch("MyOtherError", Noop);
    t.CatchAny(OnAny);
    log := t.log;
  }

  /**
   * A plain object is an instance of no tested class; a predicate that
   * accepts everything matches it, and its handler receives that object.
   */
  method CatchByPredicate() returns (log: seq<Event>, outcome: Outcome)
    ensures log == [PredicateCalled(0, FooBar), HandlerCalled(OnCustom, FooBar)]
    ensures outcome == Returned
  {
    var always := Predicate(0, v => true);
    var t := ThrownOf(FooBar);
    t := t.Catch("MyError", Noop);
    t := t.Catch("MyOtherError", Noop);
    t := t.CatchPredicate(always, OnCustom);
    outcome := t.RethrowUncaught();
    log := t.log;
  }
}
