# laziness — a verified model of the lazy-value core

This project models `lib/laziness.js` of the laziness library. A lazy value is a
cell holding a compute procedure that runs on demand, at most once among calls that
return. Three combinators are built on it:

- `func` (`lazyFunction`) lifts a function so that its arguments are awaited lazily;
- `If` (`lazyIf`) picks one of two branches by a condition;
- `Iff` (`lazyIff`) is `If` over two branch procedures.

Files:

- `values.dfy` (module `Values`): the JavaScript values the library handles. A
  thenable carries the tag `Thenable(obj)`, which replaces the duck-typed test for a
  `then` member. The module also has JavaScript truthiness, and what user code returns
  or throws.
- `promises.dfy` (module `Promises`): what the cell needs from the promise library Q.
  `Resolve` says what a value has settled to. `All` models `Q.all`. `Adopt` says how a
  `then` handler's result settles a promise. An `Env` is a snapshot of which thenables
  have settled, and how.
- `laziness.dfy` (module `Laziness`):
  - the class `LazyValue`, with the source's two fields `_value` (`value`) and
    `_finalValue` (`finalValue`);
  - a ghost `state` (`Unforced | Pending | Ready(v) | Stuck(v)`) that `Valid()` ties
    to those fields;
  - a ghost count of compute calls, and the methods `Force`, `IsReady`, `Get` and
    `Then`;
  - `Fulfil` and `Reject`, the external events of the promise a compute procedure
    returned;
  - the compute procedures the combinators build (`Compute`), how their promises
    settle (`Settlement`), and which thenables they force (`Demanded`);
  - the combinator methods `LazyFunction`, `LazyIf` and `LazyIff`.
- `scenarios.dfy` (module `Scenarios`): the runs of `test/laziness.spec.js` and the
  branch-selection behaviour, proved from the contracts above.

Where the code differs from what a lazy value is usually meant to do, the model
follows the code:

- A compute procedure that throws is run again by the next `force` or `then`. Its
  result is never assigned to `_value` (lib/laziness.js:32), so "at most once" holds
  only among calls that return.
- A compute procedure that returns `null` or `undefined` gets that value stored. The
  lookup of `then` on it then throws a TypeError (lib/laziness.js:33). The cell is
  then stuck: `force` does nothing and it never becomes ready. The first `then` hands
  the TypeError to `onError`, and later calls of `then` throw it (line 70 is outside
  the `try`).
- `lazyIff` builds a cell for both branch procedures (lib/laziness.js:104-106). It
  calls neither procedure, and the unchosen cell is never forced.
- The handler of `lazyIf` returns the branch object (line 96). Q adopts it, so the
  selected branch is forced and the conditional settles to that branch's outcome.
  `Settlement` and `Demanded` state this.
- A rejection is never recorded: only a success handler is attached (lines 35-38).
  So the cell stays not ready, and nothing tells it apart from a cell still waiting.

## Model

| member | source | states |
|---|---|---|
| Values.Truthy | lib/laziness.js:96 | the `?:` test: undefined and null are false, every object is true, a boolean is itself, a number is true unless 0, a string unless empty |
| Promises.Resolve | lib/laziness.js:81 | how `Q.all` reads an argument: a value without `then` is fulfilled with itself at once; a thenable is pending until the environment settles it, and then as the environment says |
| Promises.Adopt | lib/laziness.js:81-83 | how the promise of `then` takes over its handler's result: a throw rejects it, a plain value fulfils it, and a thenable is adopted, so the promise stays pending exactly while that thenable does |
| Promises.All | lib/laziness.js:81 | `Q.all` is either pending, rejected, or fulfilled with one value per argument |
| Promises.AllFulfilledExactly | lib/laziness.js:81-82 | `Q.all(args)` is fulfilled with `vs` if and only if every argument is fulfilled, each with the value at its own position in `vs` |
| Promises.AllRejectedExactly | lib/laziness.js:81 | `Q.all(args)` is rejected if and only if some argument is rejected; the error is that of the first rejected argument |
| Laziness.Invoke | lib/laziness.js:32 | calling the compute procedure: a user procedure (`new LazyValue(f)`, line 86) is called with no arguments; the two built procedures (lines 81 and 95) never throw and return their own chained promise |
| Laziness.Pick | lib/laziness.js:96 | the conditional hands back the true branch when the first resolved value is truthy and the false branch otherwise, also when the list is empty |
| Laziness.Settlement | lib/laziness.js:81-97 | a lifted function's promise settles only once `Q.all` over its arguments has, and is fulfilled only when every argument is; a conditional's promise settles only once its condition has |
| Laziness.Demanded | lib/laziness.js:81-97 | forcing the cell calls `then` on the promise its procedure returns (line 35), and `Q.all` calls it on every thenable argument or condition, so lazy arguments and conditions are forced |
| Laziness.LiftedWaitsForArguments | lib/laziness.js:80-84 | while some argument is unfulfilled, the lifted function is not applied: replacing its body changes neither the outcome nor what gets forced; the outcome is pending, or a rejection if an argument was rejected |
| Laziness.LiftedAppliesInOrder | lib/laziness.js:81-82 | once all arguments are fulfilled, `f` is applied to the resolved values in positional order; its result settles the cell's promise, and a thenable it returns is the only extra one forced |
| Laziness.LiftedFailsFast | lib/laziness.js:81 | a rejected argument rejects the lifted function's promise without applying `f`, with the error of the first rejected argument in position, which may come before the given one (Q takes the first in time; see `Promises.All` under "Left out") |
| Laziness.AllOfOne | lib/laziness.js:95 | `Q.all([cond])` is pending, rejected or fulfilled exactly as `cond` is, with `[value]` as the fulfilled list |
| Laziness.IfFollowsCondition | lib/laziness.js:94-98 | the conditional waits for the condition and passes on its rejection; once it is fulfilled, the conditional settles as the true branch when the value is truthy and as the false branch otherwise |
| Laziness.IfForcesOnlyChosen | lib/laziness.js:93-99 | a branch is forced if and only if the condition has resolved to a value of that branch's truthiness, so the other branch is never forced by the conditional |
| Laziness.LazyValue.constructor | lib/laziness.js:20-22 | a new cell holds its compute procedure, is unforced and has not called it |
| Laziness.LazyValue.Force | lib/laziness.js:28-44 | on a forced cell nothing changes and the procedure is not called; otherwise it is called once. A throw leaves the cell unforced and is passed on. A thenable makes the cell pending. Null or undefined makes it stuck and raises a TypeError. Any other value makes the cell ready with that value |
| Laziness.LazyValue.IsReady | lib/laziness.js:48-50 | true exactly when the cell is ready |
| Laziness.LazyValue.Get | lib/laziness.js:54-56 | the final value of a ready cell, undefined otherwise |
| Laziness.LazyValue.Fulfil | lib/laziness.js:35-38 | a pending cell's promise fulfils with `v`: the cell becomes ready with `v`, and the procedure is not called again |
| Laziness.LazyValue.Reject | lib/laziness.js:35-38 | a pending cell's promise rejects: the cell stays pending and not ready, its fields unchanged |
| Laziness.LazyValue.Then | lib/laziness.js:60-72 | always forces first. A fault from forcing goes to `onError`, and `then` returns `onError`'s own result, which need not be a promise. A ready cell schedules `onSuccess` with its value and a pending cell delegates to its chained promise; both return a promise. A stuck cell throws the TypeError out of `then`, which returns nothing |
| Laziness.LazyFunction | lib/laziness.js:76-89 | builds a fresh unforced cell that has not run `f`; with no arguments its procedure is `f` itself, otherwise the procedure that awaits exactly the given arguments |
| Laziness.LazyIf | lib/laziness.js:93-99 | builds a fresh unforced cell whose procedure chooses between the given condition and branches |
| Laziness.LazyIff | lib/laziness.js:103-107 | builds two fresh, distinct, unforced cells around the branch procedures, calling neither, and a fresh conditional over them |
| Scenarios.NoArgumentFunction | test/laziness.spec.js:12-25 | a lifted no-argument function is not ready and not run before `force`; after it, it is ready with 42 and has run once; a second `force` does not run it again |
| Scenarios.ThenDeliversValue | test/laziness.spec.js:27-33 | `then` on such a cell schedules `onSuccess` with 42 |
| Scenarios.PromiseReturningCompute | test/laziness.spec.js:35-52 | a procedure returning a promise is run by `then`; the cell is not ready until the promise fulfils, then ready with 42; the procedure ran once |
| Scenarios.RejectedPromiseCompute | lib/laziness.js:33-38 | after the promise rejects, the cell is not ready; `then` delegates and does not run the procedure again |
| Scenarios.ThrowingCompute | lib/laziness.js:29-32 | a throwing procedure is run again by each `then`, and each time its error goes to `onError`; `then` returns `onError`'s own result, not a promise it creates |
| Scenarios.NullCompute | lib/laziness.js:32-33 | a procedure returning null: the first `then` reports the TypeError to `onError`, the second throws it |
| Scenarios.SimpleArgument | test/laziness.spec.js:54-62 | `func(arg => arg + 1)(41)` settles to 42 |
| Scenarios.PromisedArgument | test/laziness.spec.js:64-78 | with a promised argument, the lifted function's promise is pending, until the argument fulfils with 41, and any other body in place of `arg + 1` gives the same outcome and forces the same thenables, so the body is not applied; it then settles to 42 |
| Scenarios.TwoPromisedArguments | test/laziness.spec.js:80-94 | with two promised arguments it stays pending after only the first fulfils, and settles to 40 + 2 = 42 once both have |
| Scenarios.IfForcesSelectedBranch | lib/laziness.js:93-99 | `If(1, a, b)` forces `a` and not `b`, `If(0, a, b)` forces `b` and not `a`, and building either runs neither branch procedure |
| Scenarios.IffForcesSelectedBranch | lib/laziness.js:103-107 | `Iff(false, p, q)` runs neither procedure when built, and forces only the cell around `q` |

## Left out

- Laziness.LazyValue.Force: when the compute procedure returns a lazy value, lib/laziness.js:35 calls its `then` at once, which forces it (line 62) inside this `force`. The model records that forcing only in `Demanded` and `Adopted`. `Force` and `Then` change only their own cell, so their frames do not show the nested cell being forced.
- Laziness.LazyValue.Then: it forces the cell through `Force`, so a lazy value the compute procedure returns is forced inside this call too (lib/laziness.js:35 → 62), outside the frame `modifies this`. The model records that forcing only in `Demanded` and `Adopted`. `ThenReturn` says only what kind of thing `then` returns. What `onError` returns, and how the returned promise later settles, are not modelled.
- Asynchronous delivery is not modelled: `Q.fcall` (lib/laziness.js:68), the event-loop order of `Q.all` and of adoption. `OnSuccess` says what will be delivered, not when.
- Fulfilment and rejection of a compute procedure's promise are external events (`Fulfil`, `Reject`). The model does not require the value passed to `Fulfil` to agree with `Settlement`; the scenarios pick it by hand.
- `Delegated` records that `then` hands its callbacks to the chained promise. What that promise later delivers is not modelled.
- Promises.All: when several arguments are rejected, the model takes the first rejected in position. Q takes the first to reject in time, which depends on scheduling.
- The promise a built compute procedure returns gets its identity when the cell is built, not when the procedure runs. Only its distinctness from the arguments and branches is used.
- The `this` passed by `f.apply(this, ...)` (lib/laziness.js:82) is host-specific and not modelled.
- A user procedure is a mathematical function: it gives the same result on every call. A procedure that throws and later returns is not modelled.
- A thenable's own `then` is assumed to return a promise. One whose `then` throws, or that is a lazy value whose forcing throws, is not modelled. Callbacks are assumed to be functions, so a missing `onError` does not throw.
- Numbers are integers: no floating point, NaN or `-0`. The fixtures `AddOne` and `Sum` model `+` only on numbers, not string concatenation. Plain objects and arrays are not separate values; they would behave like any other non-null value without `then`.
- A callback-style adapter (`nfunc`) is not part of the library's exports (lib/laziness.js:109-113), so it is not modelled. example/laziness_example.js is a demonstration using process execution and console output, and is not modelled.
