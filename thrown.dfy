/**
 * The `Thrown` dispatcher: wraps one caught value and hands it to the first
 * handler whose test accepts it. The only mutable state is the `caught`
 * flag; `log` stands for the callbacks the dispatcher has made so far.
 */
module ErrorDispatch {
  import opened Values
  import opened Chain

  class Thrown {
    /** The wrapped value, fixed at construction. */
    const err: Value
    /** Whether a `catch` / `catchPredicate` call has matched. */
    var caught: bool
    /** The predicates and handlers called so far, with their arguments. */
    var log: seq<Event>

    /** The dispatcher's observable state, as the reference semantics sees it. */
    function Snapshot(): State
      reads this
    {
      State(caught, log)
    }

    constructor (err: Value)
      ensures this.err == err
      ensures !caught && log == []
      ensures Snapshot() == Initial
    {
      this.err := err;
      caught := false;
      log := [];
    }

    /**
     * `catchPredicate(p, h)`: while nothing has matched, evaluates `p` on the
     * wrapped value and, if it holds, marks the error caught and calls `h`
     * with it. Once caught, neither `p` nor `h` is called.
     */
    method CatchPredicate(p: Predicate, h: HandlerId) returns (self: Thrown)
      modifies this
      ensures self == this
      ensures Snapshot() == Step(err, old(Snapshot()), Attempt(ByPredicate(p), h))
      ensures old(caught) ==> caught && log == old(log)
      ensures !old(caught) ==> caught == p.test(err)
      ensures !old(caught) ==>
        log == old(log) + [PredicateCalled(p.id, err)] + (if p.test(err) then [HandlerCalled(h, err)] else [])
    {
      if !caught {
        log := log + [PredicateCalled(p.id, err)];
        if p.test(err) {
          caught := true;
          log := log + [HandlerCalled(h, err)];
        }
      }
      self := this;
    }

    /**
     * `catch(ctor, h)`: while nothing has matched, if the wrapped value is an
     * instance of `ctor` (of it or of a subclass), marks the error caught and
     * calls `h` with it. Otherwise nothing changes.
     */
    method Catch(ctor: ClassName, h: HandlerId) returns (self: Thrown)
      modifies this
      ensures self == this
      ensures Snapshot() == Step(err, old(Snapshot()), Attempt(ByConstructor(ctor), h))
      ensures caught <==> old(caught) || InstanceOf(err, ctor)
      ensures log == if !old(caught) && InstanceOf(err, ctor)
                     then old(log) + [HandlerCalled(h, err)] else old(log)
    {
      if !caught {
        if InstanceOf(err, ctor) {
          caught := true;
          log := log + [HandlerCalled(h, err)];
        }
      }
      self := this;
    }

    /**
     * `catchAny(h)`: calls `h` with the wrapped value when nothing has
     * matched. It never changes `caught`.
     */
    method CatchAny(h: HandlerId)
      modifies this`log
      ensures caught == old(caught)
      ensures Snapshot() == CatchAnyStep(err, old(Snapshot()), h)
      ensures log == if caught then old(log) else old(log) + [HandlerCalled(h, err)]
    {
      if !caught {
        log := log + [HandlerCalled(h, err)];
      }
    }

    /**
     * `rethrowUncaught(override)`: returns normally when something matched;
     * otherwise throws `override`, or the wrapped value itself when
     * `override` is null or undefined (an omitted argument is undefined).
     */
    method RethrowUncaught(override: Value := Undefined) returns (outcome: Outcome)
      ensures outcome == RethrowOutcome(err, Snapshot(), override)
      ensures outcome == Returned <==> caught
      ensures outcome.Threw? && !IsNullish(override) ==> outcome.thrown == override
      ensures outcome.Threw? && IsNullish(override) ==> outcome.thrown == err
    {
      if !caught {
        return Threw(Coalesce(override, err));
      }
      return Returned;
    }
  }

  /** `thrown(err)`: a fresh dispatcher for `err`. */
  method ThrownOf(err: Value) returns (t: Thrown)
    ensures fresh(t)
    ensures t.err == err && !t.caught && t.log == []
  {
    t := new Thrown(err);
  }

  /**
   * Any fluent chain on a fresh dispatcher — the attempts in order, then
   * the terminal call — ends exactly as the reference semantics says.
   */
  method RunChain(err: Value, attempts: seq<Attempt>, terminal: Terminal)
    returns (caught: bool, log: seq<Event>, outcome: Outcome)
    ensures Resolution(caught, log, outcome) == Dispatch(err, attempts, terminal)
  {
    var t := ThrownOf(err);
    var i := 0;
    while i < |attempts|
      invariant 0 <= i <= |attempts|
      invariant fresh(t) && t.err == err
      invariant t.Snapshot() == Run(err, attempts[..i])
    {
      assert attempts[..i + 1][..i] == attempts[..i];
      match attempts[i].matcher {
        case ByConstructor(c) =>
          t := t.Catch(c, attempts[i].handler);
        case ByPredicate(p) =>
          t := t.CatchPredicate(p, attempts[i].handler);
      }
      i := i + 1;
    }
    assert attempts[..i] == attempts;
    outcome := Returned;
    match terminal {
      case Unterminated =>
      case CatchAny(h) =>
        t.CatchAny(h);
      case RethrowUncaught(o) =>
        outcome := t.RethrowUncaught(o);
    }
    caught, log := t.caught, t.log;
  }
}
