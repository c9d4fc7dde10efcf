# thrown — a verified model of the `Thrown` error dispatcher

`thrown(err)` wraps one caught value in a `Thrown` object. A fluent chain of
`catch(ctor, handler)` and `catchPredicate(predicate, handler)` calls follows.
Each call tests the wrapped value, and only the first test that matches gets its
handler called. The chain ends with `catchAny(handler)`, which handles whatever
did not match, or with `rethrowUncaught(override?)`, which throws `override ?? err`
if nothing matched.

The model has four modules:

- `Values` (values.dfy): representative JavaScript values a `catch` clause can receive.
  An object has an identity (`ref`) and a lineage, which lists the constructor names along its
  prototype chain. `InstanceOf` is membership in that lineage; primitives, `null`
  and `undefined` are instances of nothing. `Coalesce` is the `??` operator.
- `Chain` (chain.dfy): the reference semantics, as pure functions.
  - `Step` is one `catch` or `catchPredicate` call.
  - `Run` is a whole chain of attempts, applied in order to a fresh dispatcher.
  - `FirstMatch` is an independent definition of "the earliest attempt that matches".
  - `CatchAnyStep`, `RethrowOutcome` and `Dispatch` cover the terminal calls.
  - Lemmas relate these definitions to each other.
- `ErrorDispatch` (thrown.dfy): the `Thrown` class itself. It has a constant `err`, a
  mutable `caught` flag and a `log` of the callbacks it has made. Each method is
  tied to the reference semantics. `RunChain` drives the class through any chain and
  proves the result is the one `Chain.Dispatch` gives.
- `ThrownScenarios` (scenarios.dfy): the six scenarios of the test suite, replayed
  on the class.

Callbacks are not run. A handler is identified by a `HandlerId` and a predicate by
a `Predicate` value (an id and a total function `Value -> bool`). Every call the
dispatcher makes is appended to the log as `HandlerCalled(id, value)` or
`PredicateCalled(id, value)`. Throwing is modelled as a returned `Outcome`: either
`Returned` or `Threw(value)`. An omitted `override` argument is `Undefined`, which
is also the parameter's default value.

## Model

| member | source | states |
|---|---|---|
| `ErrorDispatch.Thrown.constructor` | src/thrown.ts:22-25 | the stored error is exactly the given value, `caught` is false, and no callback has been made |
| `ErrorDispatch.ThrownOf` | src/thrown.ts:78-80 | `thrown(err)` yields a fresh dispatcher holding exactly `err`, uncaught, with no callbacks made |
| `ErrorDispatch.Thrown.CatchPredicate` | src/thrown.ts:30-39 | returns the same object. If already caught, nothing changes and neither the predicate nor the handler is called. Otherwise the predicate is called once on the stored value; `caught` becomes its answer; the handler is called once with the stored value exactly when the answer is true |
| `ErrorDispatch.Thrown.Catch` | src/thrown.ts:45-54 | returns the same object. `caught` becomes true iff it already was or the stored value is an instance of the constructor. The handler is called once with the stored value iff that uncaught instance test passes; otherwise the log is unchanged |
| `ErrorDispatch.Thrown.CatchAny` | src/thrown.ts:59-63 | calls the handler with the stored value iff not caught; `caught` is never changed |
| `ErrorDispatch.Thrown.RethrowUncaught` | src/thrown.ts:68-72 | returns normally iff caught. Otherwise it throws the override when it is neither null nor undefined, and the stored value itself when it is |
| `ErrorDispatch.RunChain` | src/thrown.ts:30-72 | any chain of `catch`/`catchPredicate` calls on a fresh dispatcher, followed by `catchAny`, `rethrowUncaught` or nothing, leaves exactly the flag, callbacks and outcome of `Chain.Dispatch` |
| `Chain.FirstMatch` | src/thrown.ts:46-50 | the result is the index of an attempt whose test accepts the value, and no earlier attempt's test does; it is `None` only when no attempt's test accepts it |
| `Chain.RunFollowsFirstMatch` | src/thrown.ts:30-54 | after a chain, `caught` holds iff some attempt matches. The callbacks made are the predicate tests of the attempts up to and including the first match (all attempts if none matches), followed by exactly that attempt's handler with the stored value |
| `Chain.FirstMatchWins` | src/thrown.ts:46-50 | first match wins: `caught` iff some attempt matches; the handler calls of a chain are exactly `[the first matching attempt's handler, with the stored value]`, or none when nothing matches |
| `Chain.CaughtAbsorbs` | src/thrown.ts:31-51 | once a chain has caught the error, any further `catchPredicate` (guard at line 31) or `catch` (guard at line 46) attempts leave the state unchanged: no test is evaluated and no handler is called |
| `Chain.RunMonotone` | src/thrown.ts:20-48 | along a chain, `caught` never goes back from true to false and the callbacks already made remain a prefix of later logs |
| `Chain.RethrowResolves` | src/thrown.ts:68-72 | a chain ended by `rethrowUncaught(o)` either called exactly one handler and returns, or called none and throws: `o` when it is neither null nor undefined, the stored value otherwise |
| `Chain.CatchAnyResolves` | src/thrown.ts:59-63 | a chain ended by `catchAny(h)` returns and calls exactly one handler with the stored value: the first matching attempt's handler, or `h` if nothing matched; `caught` is as the attempts left it |
| `Chain.CatchAnyKeepsRethrow` | src/thrown.ts:59-72 | `catchAny` leaves `caught` unchanged, so a later `rethrowUncaught` throws or returns exactly as it would have without it |
| `Chain.UnterminatedDrops` | src/thrown.ts:45-54 | a chain with no terminal call never throws; if nothing matched, no handler was called and the error is dropped |
| `ThrownScenarios.CatchOneSpecificError` | src/thrown.test.ts:22-40 | one matching `catch(MyError, …)`: its handler runs once with the instance, and `rethrowUncaught()` returns |
| `ThrownScenarios.CatchFirstOfSeveral` | src/thrown.test.ts:42-66 | with `MyError`, `MyOtherError`, `Error` in that order, only the `MyOtherError` handler runs, although `Error` also matches; nothing is thrown |
| `ThrownScenarios.RethrowUnmatched` | src/thrown.test.ts:68-86 | with no matching `catch`, no handler runs and `rethrowUncaught()` throws the very same object |
| `ThrownScenarios.RethrowOverride` | src/thrown.test.ts:88-106 | with no matching `catch`, `rethrowUncaught(e)` throws `e`, not the original value |
| `ThrownScenarios.CatchAnyUnmatched` | src/thrown.test.ts:108-127 | with no matching `catch`, `catchAny` is the only handler to run, with the original value |
| `ThrownScenarios.CatchByPredicate` | src/thrown.test.ts:129-155 | the plain object `{ foo: 'bar' }` matches no class; an always-true predicate is called on it, its handler receives it, and nothing is thrown |

## Left out

- The JavaScript exception mechanism (`throw`, `try`/`catch`) is not modelled: `rethrowUncaught` returns an `Outcome` instead of throwing.
- The TypeScript types `ObjectConstructor<T>`, `Predicate<T>` and `Catcher<Err>` (src/thrown.ts:4-13) are not modelled. They narrow handler parameter types at compile time and have no runtime behaviour.
- Values: numbers are modelled as integers (no fractions, `NaN`, `Infinity` or `-0`), and symbols and bigints have no variant of their own. The dispatcher never inspects a primitive beyond `??` and `instanceof`, which treat them all alike. Each object `ref` is taken to carry a single lineage; nothing in the datatype enforces it.
- `instanceof` is reduced to membership of the constructor's name in an explicit lineage. Prototype objects, `Symbol.hasInstance` and prototypes changed at run time are not modelled.
- Handler and predicate bodies are not modelled. A predicate is a total, side-effect-free function of the value. A handler is only recorded in the log with the value it received. So a handler that throws, or a predicate that throws or has effects, is outside the model. The messages the test handlers read (`customMessage`, `message`, `foo`) are outside it too: the scenarios check which handler received which value instead.
- The test harness (mocha, chai) is not part of this model; its scenarios are restated as methods of `ThrownScenarios`.
