# Chainable, modelled in Dafny

A model of the variant container `Chainable` of `src/chainable.ts`. A
container holds a payload (`value`) and a tag (`path`), one of `left`, `right`,
`ok`, `error` and `nothing`. Factories build one container per tag. The
transitions `buildChainable`, `chain`, `check`, `either`, `isLeft` and
`isRight` overwrite both fields in place with those of a callback's result and
return the same object. `buildChainable` does so on every tag. `chain` and
`check` short-circuit on `error` and `nothing`. `either`, `isLeft` and
`isRight` act only on `left` and `right`, through `buildChainable`. `match`,
its projections `matchEither`, `result` and `just`, and the `getX` accessors
only read the two fields.

Files:

- `chainable.dfy`, module `Chainables`: the tags, the payload type
  `Js<T>` (`undefined`, `null` or another value), the pair `Variant<T>` of the two fields,
  the pure transition function `Step`, and the class `Chainable<T>` with the
  fields `value` and `path`. Each of the six mutating methods has `modifies this`,
  returns `this` and ensures that its new pair is `Step` of its old pair.
  It also states the new pair case by case.
- `laws.dfy`, module `ChainableLaws`: `Run` folds `Step` over a fluent
  sequence of calls. The lemmas here state absorption, splitting, iteration
  and the relations between the transitions.
- `scenarios.dfy`, module `ChainableScenarios`: the scenarios of
  `src/chainable.spec.ts`, written as client methods that use only the
  class's contracts. Each ends in the string or payload the test expects.

Modelling choices:

- Callbacks are total Dafny functions. A `chain`, `either`, `isLeft` or
  `isRight` callback maps the payload to the pair of the container it returns.
  A `check` callback returns `Pass` for the literal `true`, or
  `Replace(pair)` for a container.
- A matcher is a record with one optional handler per tag. A handler receives
  the container's two fields. `match` requires the handler for the current
  tag to be present: without it the source calls `undefined` and throws.
  So `result` requires `ok`, `error` or `nothing`, `matchEither` requires
  `left`, `right` or `nothing`, and `just` requires `ok` or `nothing`.
- `result`, `matchEither` and `just` return `Reply<R>`. A handler's value is
  `Returned(r)`, and the string `"nothing"` that the source returns for
  `nothing` is `Literal("nothing")`. `just`'s optional second argument is
  `Option<() -> R>`; `None` is the default argument.
- The accessors return a `Js<T>`, with `Null` for the source's `null`.
  A payload that is itself `null` therefore makes the four payload
  accessors answer `null` even on their own tag, as in the source.
- `error` and `nothing` are absorbing under `chain`, `check`, `either`,
  `isLeft` and `isRight` (`ChainableLaws.HaltedAbsorbs`). Only the public
  `buildChainable`, which ignores the tag, leaves them
  (`ChainableLaws.BuildEscapesHalt`).

## Model

| member | source | states |
|---|---|---|
| `Chainables.Chainable.constructor` | src/chainable.ts:7-10 | the new container holds the given payload and tag |
| `Chainables.Chainable.Of` | src/chainable.ts:12-14 | a fresh container with the given payload and tag |
| `Chainables.Chainable.Left` | src/chainable.ts:16-18 | a fresh container holding the payload under `left` |
| `Chainables.Chainable.Right` | src/chainable.ts:20-22 | a fresh container holding the payload under `right` |
| `Chainables.Chainable.Ok` | src/chainable.ts:24-26 | a fresh container holding the payload under `ok` |
| `Chainables.Chainable.Error` | src/chainable.ts:28-30 | a fresh container holding the payload under `error` |
| `Chainables.Chainable.Nothing` | src/chainable.ts:32-34 | a fresh container holding `undefined` under `nothing` |
| `Chainables.Step` | src/chainable.ts:36-117 | every transition keeps both fields or adopts both fields of one callback result; no field is updated alone |
| `Chainables.Chainable.BuildChainable` | src/chainable.ts:36-41 | the new pair is `Step` of the old under `Build`: it adopts value and path of `fn(value)` whatever the tag, and returns the same object |
| `Chainables.Chainable.Chain` | src/chainable.ts:44-53 | on `error`/`nothing` the object is unchanged; otherwise it holds exactly the pair `fn(old value)`; returns the same object |
| `Chainables.Chainable.Check` | src/chainable.ts:62-76 | on `error`/`nothing`, or when the callback answers `true`, unchanged; otherwise it adopts the returned container's pair; returns the same object |
| `Chainables.Chainable.Either` | src/chainable.ts:96-103 | on `left` adopts `onLeft(value)`, on `right` adopts `onRight(value)`, on any other tag unchanged; returns the same object |
| `Chainables.Chainable.IsLeft` | src/chainable.ts:105-110 | adopts `fn(value)` only on `left`; otherwise unchanged |
| `Chainables.Chainable.IsRight` | src/chainable.ts:112-117 | adopts `fn(value)` only on `right`; otherwise unchanged |
| `Chainables.Chainable.Match` | src/chainable.ts:92-94 | requires a handler for the current tag, and returns that tag's handler applied to the container |
| `Chainables.Chainable.MatchEither` | src/chainable.ts:119-125 | `left` and `right` give the user function of the unwrapped payload, `nothing` gives "nothing"; `ok` and `error` are excluded because the source throws on them |
| `Chainables.Chainable.Result` | src/chainable.ts:127-133 | `ok` and `error` give the user function of the unwrapped payload, `nothing` gives "nothing"; `left` and `right` are excluded because the source throws on them |
| `Chainables.Chainable.Just` | src/chainable.ts:135-140 | `ok` gives the user function of the payload; `nothing` gives the nothing-handler's value, or "nothing" by default; other tags are excluded because the source throws on them |
| `Chainables.Chainable.GetOk` | src/chainable.ts:142-144 | the payload when the tag is `ok`, else null; non-null exactly when the tag is `ok` and the payload is not null |
| `Chainables.Chainable.GetLeft` | src/chainable.ts:145-147 | the payload when the tag is `left`, else null; non-null exactly when the tag is `left` and the payload is not null |
| `Chainables.Chainable.GetRight` | src/chainable.ts:148-150 | the payload when the tag is `right`, else null; non-null exactly when the tag is `right` and the payload is not null |
| `Chainables.Chainable.GetError` | src/chainable.ts:151-153 | the payload when the tag is `error`, else null; non-null exactly when the tag is `error` and the payload is not null |
| `Chainables.Chainable.GetNothing` | src/chainable.ts:154-156 | `true` exactly when the tag is `nothing`, else null |
| `ChainableLaws.BuildEscapesHalt` | src/chainable.ts:36-41 | from `error` or `nothing`, `buildChainable` adopts the callback's result, where `chain` would have kept the state |
| `ChainableLaws.RunConcat` | src/chainable.ts:36-117 | a fluent sequence of calls may be split anywhere: the rest continues from the state the prefix left, because every call returns the same object |
| `ChainableLaws.HaltedAbsorbs` | src/chainable.ts:44-117 | from `error` or `nothing`, any sequence of `chain`, `check`, `either`, `isLeft` and `isRight` calls leaves value and path untouched, whatever the callbacks |
| `ChainableLaws.HaltIsFinal` | src/chainable.spec.ts:171-183 | once a prefix reaches `error` or `nothing`, remaining calls other than `buildChainable` do not change the state |
| `ChainableLaws.ContinuingHadNoHalt` | src/chainable.ts:44-76 | a sequence ending on `left`, `right` or `ok` was not on `error` or `nothing` after any prefix whose remainder has no `buildChainable` |
| `ChainableLaws.ChainsIterate` | src/chainable.ts:44-53 | `n` chained calls of a callback that never returns `error`/`nothing` equal `n`-fold composition of the callback |
| `ChainableLaws.ChainAssociates` | src/chainable.ts:44-53 | two chained calls equal one call whose callback chains the second onto the first's result |
| `ChainableLaws.CheckIsChain` | src/chainable.ts:62-76 | `check` equals `chain` with a callback that answers `true` by returning the current container |
| `ChainableLaws.EitherIsOneBranch` | src/chainable.ts:96-117 | `either(l, r)` acts as `isLeft(l)` except on `right`, and as `isRight(r)` except on `left` |
| `ChainableLaws.ExactlyOneAccessor` | src/chainable.ts:142-156 | for a payload other than null exactly one of the five accessors returns non-null; a null payload makes the four payload accessors return null |
| `ChainableScenarios.BasicChaining` | src/chainable.spec.ts:31-36 | `right(2)` chained twice with a +1-to-right callback holds 4 |
| `ChainableScenarios.MatchLeftAndRight` | src/chainable.spec.ts:40-64 | matches give "right 2", "left 2" and, after chaining to left, "left 3" |
| `ChainableScenarios.SkipsToEndOnError` | src/chainable.spec.ts:84-93 | `ok(2).chain(+1 to error).chain(+1 to ok)` matches as "error 3" |
| `ChainableScenarios.SkipsToEndOnNothing` | src/chainable.spec.ts:96-114 | a `nothing` container, and one chained after reaching `nothing`, match as "nothing" |
| `ChainableScenarios.CheckPasses` | src/chainable.spec.ts:157-169 | `check` answering `true` keeps "ok 2"; three more chains give "ok 5" |
| `ChainableScenarios.CheckBreaks` | src/chainable.spec.ts:171-183 | `check` returning an error gives "error 3", which later chains do not change |
| `ChainableScenarios.EitherBranches` | src/chainable.ts:96-117 | `either` takes the left callback on `left`, the right one on `right`, none on `ok`; `error` ignores `isLeft`/`isRight` |
| `ChainableScenarios.ProjectNothing` | src/chainable.ts:127-156 | `result` and default `just` on `nothing` give "nothing"; `just` with a handler gives its value; `getNothing` gives `true` |
| `ChainableScenarios.AccessorsInvertFactories` | src/chainable.ts:16-34 | each factory's payload is returned by its own tag's accessor, and every other accessor returns null |

## Left out

- `src/async-chainable.ts` (`AsyncAF`, `then`, `chain`, `check`, `willMatch`, `catch`, `finally`) is not part of this model. It delegates to the host's promises and scheduler, which the model has no counterpart for.
- `task` and `taskCheck` (src/chainable.ts:55-60, 78-90) only wrap promises in `AsyncAF`, so they are left out with it.
- `chainP` and `checkP` are called by the tests and forwarded by `AsyncAF`, but `Chainable` never defines them, so there is nothing to model.
- `Of` takes a `Tag`, so a container built with a path outside the five tags cannot be expressed. The source's `path` is untyped.
- Callbacks that throw, or that return something other than a container (or `true` for `check`), are not modelled. In the source such a result writes undefined fields, or throws when the result is null or undefined.
- Chain: "the callback is never invoked" on `error`/`nothing` is stated as "the object is unchanged and the result does not depend on the callback". Dafny callbacks are pure, so an invocation has no other observable effect.
- Match: handlers receive the container's two fields, not the object itself. A handler that mutates the container it is given is not modelled.
