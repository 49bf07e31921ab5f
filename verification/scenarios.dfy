/** Concrete runs of the lazy-value library, following the library's own test suite
    and the behaviours the combinators promise; each is proved from the contracts of
    the cell and the combinators alone. */
module Scenarios {
  import opened Values
  import opened Promises
  import opened Laziness

  /** A procedure that ignores its arguments and returns 42. */
  function Answer(args: seq<Value>): Returned {
    Gave(Num(42))
  }

  /** `arg + 1`, on the numeric arguments the suite uses. */
  function AddOne(args: seq<Value>): Returned {
    if |args| > 0 && args[0].Num? then Gave(Num(args[0].n + 1)) else Gave(Undefined)
  }

  /** `a + b`, on the numeric arguments the suite uses. */
  function Sum(args: seq<Value>): Returned {
    if |args| > 1 && args[0].Num? && args[1].Num? then Gave(Num(args[0].n + args[1].n))
    else Gave(Undefined)
  }

  /** A lifted function without arguments is not run until forced, is ready right
      after, and a second force does not run it again. */
  method NoArgumentFunction()
    returns (readyBefore: bool, readyAfter: bool, got: Value,
             ghost callsBefore: nat, ghost callsAfterFirst: nat, ghost callsAfterSecond: nat)
    ensures !readyBefore && readyAfter && got == Num(42)
    ensures callsBefore == 0 && callsAfterFirst == 1 && callsAfterSecond == 1
  {
    var lv := LazyFunction(Answer, []);
    readyBefore := lv.IsReady();
    callsBefore := lv.calls;
    var fault := lv.Force();
    callsAfterFirst := lv.calls;
    readyAfter := lv.IsReady();
    got := lv.Get();
    fault := lv.Force();
    callsAfterSecond := lv.calls;
  }

  /** Chaining on a plain-valued cell schedules the success callback with the value. */
  method ThenDeliversValue() returns (d: Delivery)
    ensures d == OnSuccess(Num(42))
  {
    var lv := LazyFunction(Answer, []);
    var returned;
    d, returned := lv.Then();
  }

  /** A compute procedure returning a promise is run by `then`, the cell is not ready
      until the promise fulfils, and then holds the fulfilled value. */
  method PromiseReturningCompute()
    returns (d: Delivery, readyBefore: bool, readyAfter: bool, got: Value, ghost calls: nat)
    ensures d.Delegated? && !readyBefore && readyAfter && got == Num(42) && calls == 1
  {
    var deferred := new Promise();
    var lv := LazyFunction((args: seq<Value>) => Gave(Thenable(deferred)), []);
    var returned;
    d, returned := lv.Then();
    calls := lv.calls;
    readyBefore := lv.IsReady();
    lv.Fulfil(Num(42));
    readyAfter := lv.IsReady();
    got := lv.Get();
  }

  /** A rejected promise leaves the cell not ready for good; chaining again hands the
      callbacks to the chained promise and does not run the compute procedure again. */
  method RejectedPromiseCompute() returns (readyAfter: bool, d: Delivery, ghost calls: nat)
    ensures !readyAfter && d.Delegated? && calls == 1
  {
    var deferred := new Promise();
    var lv := LazyFunction((args: seq<Value>) => Gave(Thenable(deferred)), []);
    var fault := lv.Force();
    lv.Reject(Str("boom"));
    readyAfter := lv.IsReady();
    var returned;
    d, returned := lv.Then();
    calls := lv.calls;
  }

  /** A compute procedure that throws leaves the cell unforced: each `then` calls it
      again and hands the error to `onError`, and returns what `onError` returns
      rather than a promise. */
  method ThrowingCompute()
    returns (first: Delivery, second: Delivery, firstReturn: ThenReturn, ready: bool, ghost calls: nat)
    ensures first == OnError(Thrown(Str("boom"))) && second == first && !ready && calls == 2
    ensures firstReturn == ErrorHandlerResult
  {
    var lv := LazyFunction((args: seq<Value>) => Threw(Str("boom")), []);
    first, firstReturn := lv.Then();
    var secondReturn;
    second, secondReturn := lv.Then();
    ready := lv.IsReady();
    calls := lv.calls;
  }

  /** A compute procedure that returns null: the first `then` reports the TypeError to
      `onError`, the second throws it out of `then`. */
  method NullCompute() returns (first: Delivery, second: Delivery)
    ensures first == OnError(NoThen(Null)) && second == Escapes(NoThen(Null))
  {
    var lv := LazyFunction((args: seq<Value>) => Gave(Null), []);
    var firstReturn, secondReturn;
    first, firstReturn := lv.Then();
    second, secondReturn := lv.Then();
  }

  /** A lifted function with a plain argument settles to its result. */
  lemma SimpleArgument(chain: object, env: Env)
    ensures Settlement(AfterAll(AddOne, [Num(41)], chain), env) == Settles(Fulfilled(Num(42)))
  {
    LiftedAppliesInOrder(AddOne, [Num(41)], chain, env, [Num(41)]);
  }

  /** A lifted function with a promised argument does not run before the promise
      fulfils (any other body `g` gives the same outcome and forces the same
      thenables), and settles to its result after. */
  lemma PromisedArgument(p: object, chain: object, env: Env, g: Fn)
    ensures p !in env ==>
            Settlement(AfterAll(AddOne, [Thenable(p)], chain), env) == Unsettled
    ensures p !in env ==>
            Settlement(AfterAll(AddOne, [Thenable(p)], chain), env) ==
            Settlement(AfterAll(g, [Thenable(p)], chain), env) &&
            Demanded(AfterAll(AddOne, [Thenable(p)], chain), env) ==
            Demanded(AfterAll(g, [Thenable(p)], chain), env)
    ensures p in env && env[p] == Fulfilled(Num(41)) ==>
            Settlement(AfterAll(AddOne, [Thenable(p)], chain), env) == Settles(Fulfilled(Num(42)))
  {
    if p !in env {
      LiftedWaitsForArguments(AddOne, g, [Thenable(p)], chain, env, 0);
    } else if env[p] == Fulfilled(Num(41)) {
      LiftedAppliesInOrder(AddOne, [Thenable(p)], chain, env, [Num(41)]);
    }
  }

  /** A lifted function with two promised arguments waits for both and adds them in
      order. */
  lemma TwoPromisedArguments(p1: object, p2: object, chain: object, env: Env)
    ensures p1 in env && env[p1] == Fulfilled(Num(40)) && p2 !in env ==>
            Settlement(AfterAll(Sum, [Thenable(p1), Thenable(p2)], chain), env) == Unsettled
    ensures p1 in env && env[p1] == Fulfilled(Num(40)) && p2 in env && env[p2] == Fulfilled(Num(2)) ==>
            Settlement(AfterAll(Sum, [Thenable(p1), Thenable(p2)], chain), env) == Settles(Fulfilled(Num(42)))
  {
    var args := [Thenable(p1), Thenable(p2)];
    if p1 in env && env[p1] == Fulfilled(Num(40)) {
      if p2 !in env {
        LiftedWaitsForArguments(Sum, Answer, args, chain, env, 1);
      } else if env[p2] == Fulfilled(Num(2)) {
        LiftedAppliesInOrder(Sum, args, chain, env, [Num(40), Num(2)]);
      }
    }
  }

  /** `If(1, a, b)` forces `a` and not `b`; `If(0, a, b)` forces `b` and not `a`;
      building the conditional forces neither. */
  method IfForcesSelectedBranch()
    returns (truthyA: bool, truthyB: bool, falsyA: bool, falsyB: bool, ghost callsA: nat, ghost callsB: nat)
    ensures truthyA && !truthyB && !falsyA && falsyB
    ensures callsA == 0 && callsB == 0
  {
    var a := LazyFunction(Answer, []);
    var b := LazyFunction(Answer, []);
    var yes := LazyIf(Num(1), Thenable(a), Thenable(b));
    var no := LazyIf(Num(0), Thenable(a), Thenable(b));
    callsA, callsB := a.calls, b.calls;
    IfForcesOnlyChosen(Num(1), a, b, yes.compute.chain, map[]);
    IfForcesOnlyChosen(Num(0), a, b, no.compute.chain, map[]);
    truthyA := a in Demanded(yes.compute, map[]);
    truthyB := b in Demanded(yes.compute, map[]);
    falsyA := a in Demanded(no.compute, map[]);
    falsyB := b in Demanded(no.compute, map[]);
  }

  /** `Iff` with a false condition forces only the cell around the false procedure,
      and building it runs neither procedure. */
  method IffForcesSelectedBranch()
    returns (forcesTrue: bool, forcesFalse: bool, ghost callsTrue: nat, ghost callsFalse: nat)
    ensures !forcesTrue && forcesFalse
    ensures callsTrue == 0 && callsFalse == 0
  {
    var lv, onTrue, onFalse := LazyIff(Bool(false), Answer, Answer);
    callsTrue, callsFalse := onTrue.calls, onFalse.calls;
    IfForcesOnlyChosen(Bool(false), onTrue, onFalse, lv.compute.chain, map[]);
    forcesTrue := lv.compute.onTrue.obj in Demanded(lv.compute, map[]);
    forcesFalse := lv.compute.onFalse.obj in Demanded(lv.compute, map[]);
  }
}
