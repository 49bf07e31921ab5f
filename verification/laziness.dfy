/** The lazy value (a memoising deferred-value cell) and the three combinators built on
    it: lifting a function, a lazy conditional over built branches, and a lazy
    conditional over branch procedures. */
module Laziness {
  import opened Values
  import opened Promises

  /** A user function, called with its positional arguments. */
  type Fn = seq<Value> -> Returned

  /** The identity of a promise that the promise library creates inside a compute
      procedure. */
  class Promise {
    constructor () { }
  }

  /** The compute procedure a lazy value holds.
      - `Call(f)`: a user procedure, called with no arguments.
      - `AfterAll(f, args, chain)`: the procedure `lazyFunction(f)(args...)` builds,
        which waits for every argument and then applies `f` to the resolved values;
        `chain` is the promise it returns.
      - `Choose(cond, onTrue, onFalse, chain)`: the procedure `lazyIf` builds, which
        waits for the condition and then hands back one of the two branches; `chain`
        is the promise it returns. */
  datatype Compute =
    | Call(f: Fn)
    | AfterAll(f: Fn, args: seq<Value>, chain: object)
    | Choose(cond: Value, onTrue: Value, onFalse: Value, chain: object)

  /** What calling the compute procedure returns at once. The two built procedures
      always return their promise; a user procedure returns whatever it returns. */
  function Invoke(c: Compute): (r: Returned)
    ensures c.Call? ==> r == c.f([])
    ensures !c.Call? ==> r.Gave? && r.v.Thenable? && r.v.obj == c.chain
  {
    match c
    case Call(f) => f([])
    case AfterAll(_, _, chain) => Gave(Thenable(chain))
    case Choose(_, _, _, chain) => Gave(Thenable(chain))
  }

  /** The branch the conditional hands back for the resolved condition list: the
      first element's truthiness decides, and a missing element reads as undefined. */
  function Pick(resolved: seq<Value>, onTrue: Value, onFalse: Value): (r: Value)
    ensures r == onTrue || r == onFalse
    ensures |resolved| > 0 && Truthy(resolved[0]) ==> r == onTrue
    ensures |resolved| > 0 && !Truthy(resolved[0]) ==> r == onFalse
    ensures |resolved| == 0 ==> r == onFalse
  {
    if |resolved| > 0 && Truthy(resolved[0]) then onTrue else onFalse
  }

  /** How far the promise a compute procedure returned has settled in `env`. A user
      procedure that throws or returns a value without `then` yields no promise;
      its cell never waits on one, and the result is `Unsettled`. */
  function Settlement(c: Compute, env: Env): (p: Progress)
    ensures c.AfterAll? && p.Settles? ==> !All(c.args, env).SomePending?
    ensures c.AfterAll? && p.Settles? && p.o.Fulfilled? ==> All(c.args, env).AllFulfilled?
    ensures c.Choose? && p.Settles? ==> Resolve(c.cond, env).Some?
  {
    match c
    case Call(f) =>
      if f([]).Gave? && f([]).v.Thenable? then Adopt(f([]), env) else Unsettled
    case AfterAll(f, args, _) =>
      (match All(args, env)
       case SomePending => Unsettled
       case OneRejected(e) => Settles(Rejected(e))
       case AllFulfilled(vs) => Adopt(f(vs), env))
    case Choose(cond, onTrue, onFalse, _) =>
      AllOfOne(cond, env);
      (match All([cond], env)
       case SomePending => Unsettled
       case OneRejected(e) => Settles(Rejected(e))
       case AllFulfilled(vs) => Adopt(Gave(Pick(vs, onTrue, onFalse)), env))
  }

  /** The thenables whose `then` gets called once the compute procedure has run and
      `env` has come about; a lazy value among them is thereby forced. */
  function Demanded(c: Compute, env: Env): (r: set<object>)
    ensures c.AfterAll? ==> c.chain in r && ThenablesIn(c.args) <= r
    ensures c.Choose? ==> c.chain in r && (c.cond.Thenable? ==> c.cond.obj in r)
  {
    match c
    case Call(f) => Adopted(f([]))
    case AfterAll(f, args, chain) =>
      {chain} + ThenablesIn(args) +
      (match All(args, env)
       case AllFulfilled(vs) => Adopted(f(vs))
       case _ => {})
    case Choose(cond, onTrue, onFalse, chain) =>
      {chain} + ThenablesIn([cond]) +
      (match All([cond], env)
       case AllFulfilled(vs) => Adopted(Gave(Pick(vs, onTrue, onFalse)))
       case _ => {})
  }

  /** The condition of a conditional has been fulfilled with a value of truthiness `b`. */
  predicate ResolvesTo(cond: Value, env: Env, b: bool) {
    var o := Resolve(cond, env);
    o.Some? && o.value.Fulfilled? && Truthy(o.value.v) == b
  }

  /** A lifted function is not applied while some argument is unfulfilled: its body
      cannot affect the result or what gets forced, and the result is at most a
      rejection, which needs a rejected argument. */
  lemma LiftedWaitsForArguments(f: Fn, g: Fn, args: seq<Value>, chain: object, env: Env, i: int)
    requires 0 <= i < |args| && !FulfilledAt(args, env, i)
    ensures Settlement(AfterAll(f, args, chain), env) == Settlement(AfterAll(g, args, chain), env)
    ensures Demanded(AfterAll(f, args, chain), env) == Demanded(AfterAll(g, args, chain), env)
    ensures Settlement(AfterAll(f, args, chain), env) == Unsettled ||
            Settlement(AfterAll(f, args, chain), env).o.Rejected?
    ensures (forall k :: 0 <= k < |args| ==> !RejectedAt(args, env, k)) ==>
            Settlement(AfterAll(f, args, chain), env) == Unsettled
  {
    if All(args, env).AllFulfilled? {
      AllFulfilledExactly(args, env, All(args, env).vs);
    }
    AllRejectedExactly(args, env);
  }

  /** Once every argument is fulfilled, a lifted function is applied to the values in
      their original order, its result settles the promise, and what it returns is
      the only thenable demanded besides the arguments. */
  lemma LiftedAppliesInOrder(f: Fn, args: seq<Value>, chain: object, env: Env, vs: seq<Value>)
    requires |vs| == |args|
    requires forall i :: 0 <= i < |args| ==> Resolve(args[i], env) == Some(Fulfilled(vs[i]))
    ensures Settlement(AfterAll(f, args, chain), env) == Adopt(f(vs), env)
    ensures Demanded(AfterAll(f, args, chain), env) == {chain} + ThenablesIn(args) + Adopted(f(vs))
  {
    AllFulfilledExactly(args, env, vs);
  }

  /** A rejected argument rejects a lifted function's promise without applying the
      function, with the error of the first rejected argument in position (which need
      not be argument `i`). */
  lemma LiftedFailsFast(f: Fn, args: seq<Value>, chain: object, env: Env, i: int)
    requires 0 <= i < |args| && RejectedAt(args, env, i)
    ensures Settlement(AfterAll(f, args, chain), env).Settles?
    ensures Settlement(AfterAll(f, args, chain), env).o.Rejected?
    ensures exists k :: 0 <= k <= i && RejectedAt(args, env, k) &&
                        Resolve(args[k], env).value.e == Settlement(AfterAll(f, args, chain), env).o.e &&
                        forall m :: 0 <= m < k ==> !RejectedAt(args, env, m)
  {
    AllRejectedExactly(args, env);
  }

  /** `Q.all([cond])` settles exactly as `cond` does. */
  lemma AllOfOne(cond: Value, env: Env)
    ensures Resolve(cond, env) == None ==> All([cond], env) == SomePending
    ensures Resolve(cond, env).Some? && Resolve(cond, env).value.Rejected? ==>
            All([cond], env) == OneRejected(Resolve(cond, env).value.e)
    ensures Resolve(cond, env).Some? && Resolve(cond, env).value.Fulfilled? ==>
            All([cond], env) == AllFulfilled([Resolve(cond, env).value.v])
  {
    assert [cond][1..] == [];
  }

  /** The conditional waits for its condition, passes on its rejection, and otherwise
      settles as the branch its truthiness selects. */
  lemma IfFollowsCondition(cond: Value, onTrue: Value, onFalse: Value, chain: object, env: Env)
    ensures Resolve(cond, env) == None ==>
            Settlement(Choose(cond, onTrue, onFalse, chain), env) == Unsettled
    ensures ResolvesTo(cond, env, true) ==>
            Settlement(Choose(cond, onTrue, onFalse, chain), env) == Adopt(Gave(onTrue), env)
    ensures ResolvesTo(cond, env, false) ==>
            Settlement(Choose(cond, onTrue, onFalse, chain), env) == Adopt(Gave(onFalse), env)
    ensures Resolve(cond, env).Some? && Resolve(cond, env).value.Rejected? ==>
            Settlement(Choose(cond, onTrue, onFalse, chain), env) == Settles(Rejected(Resolve(cond, env).value.e))
  {
    AllOfOne(cond, env);
  }

  /** A branch of the conditional is forced only when the condition has resolved and
      selected it; the other branch is never forced by the conditional. */
  lemma IfForcesOnlyChosen(cond: Value, onTrue: object, onFalse: object, chain: object, env: Env)
    requires onTrue != onFalse && chain != onTrue && chain != onFalse
    requires cond.Thenable? ==> cond.obj != onTrue && cond.obj != onFalse
    ensures onTrue in Demanded(Choose(cond, Thenable(onTrue), Thenable(onFalse), chain), env)
            <==> ResolvesTo(cond, env, true)
    ensures onFalse in Demanded(Choose(cond, Thenable(onTrue), Thenable(onFalse), chain), env)
            <==> ResolvesTo(cond, env, false)
  {
    AllOfOne(cond, env);
    assert ThenablesIn([cond]) == if cond.Thenable? then {cond.obj} else {};
  }

  /** The `_value` field: absent before a successful first call of the compute
      procedure, then what it returned, or the promise chained onto the thenable it
      returned. */
  datatype Slot = Unset | Held(v: Value) | Chained(source: object)

  /** The cell's state, which the fields `_value` and `_finalValue` encode by their
      presence. `Stuck(v)`: the compute procedure returned null or undefined, the
      value can never become ready. */
  datatype CellState = Unforced | Pending | Ready(v: Value) | Stuck(v: Value)

  /** A synchronous failure while forcing: the compute procedure threw, or looking up
      `then` on the null or undefined it returned threw a TypeError. */
  datatype Fault = Thrown(e: Value) | NoThen(v: Value)

  /** What `then(onSuccess, onError)` does with its two callbacks. */
  datatype Delivery =
    | OnError(fault: Fault)         // onError called at once with the fault
    | OnSuccess(v: Value)           // onSuccess scheduled with the final value
    | Delegated(source: object)     // both handed to the promise chained onto `source`
    | Escapes(fault: Fault)         // the fault is thrown out of `then` itself

  /** What `then(onSuccess, onError)` hands back to its caller. Only a promise can be
      chained on with a further `then`; whatever `onError` returns need not be one. */
  datatype ThenReturn =
    | NewPromise                    // the promise of `Q.fcall`, or of the chained promise's `then`
    | ErrorHandlerResult            // the result of calling `onError` with the fault
    | NoReturn                      // `then` threw

  class LazyValue {
    const compute: Compute
    var value: Slot
    var finalValue: Option<Value>

    /** The state the two fields encode. */
    ghost var state: CellState
    /** How the thenable the compute procedure returned has settled, if it has. */
    ghost var upstream: Option<Outcome>
    /** How many times the compute procedure has been called. */
    ghost var calls: nat

    ghost predicate Valid()
      reads this
    {
      match state
      case Unforced =>
        value == Unset && finalValue == None && upstream == None &&
        (calls == 0 || Invoke(compute).Threw?)
      case Pending =>
        value.Chained? && Invoke(compute) == Gave(Thenable(value.source)) &&
        finalValue == None && calls == 1 &&
        (upstream == None || upstream.value.Rejected?)
      case Ready(v) =>
        finalValue == Some(v) && calls == 1 &&
        ((value == Held(v) && !v.Thenable? && !Nullish(v) && Invoke(compute) == Gave(v) && upstream == None) ||
         (value.Chained? && Invoke(compute) == Gave(Thenable(value.source)) && upstream == Some(Fulfilled(v))))
      case Stuck(v) =>
        value == Held(v) && Nullish(v) && Invoke(compute) == Gave(v) &&
        finalValue == None && upstream == None && calls == 1
    }

    /** Building a lazy value does not call its compute procedure. */
    constructor (compute: Compute)
      ensures Valid() && this.compute == compute
      ensures state == Unforced && calls == 0 && upstream == None
    {
      this.compute := compute;
      value := Unset;
      finalValue := None;
      state := Unforced;
      upstream := None;
      calls := 0;
    }

    /** Calls the compute procedure unless a call has already returned. A plain result
        becomes the final value at once; a thenable leaves the value pending until it
        fulfils; a throw, or the TypeError raised by looking up `then` on null or
        undefined, is thrown on to the caller. Only this cell's fields are in the
        frame: when the returned thenable is itself a lazy value, the `then` call that
        forces it is recorded by `Demanded`, not by this method. */
    method Force() returns (fault: Option<Fault>)
      requires Valid()
      modifies this
      ensures Valid() && upstream == old(upstream)
      ensures old(state) != Unforced ==>
              state == old(state) && value == old(value) && finalValue == old(finalValue) &&
              calls == old(calls) && fault == None
      ensures old(state) == Unforced ==> calls == old(calls) + 1
      ensures old(state) == Unforced && Invoke(compute).Threw? ==>
              state == Unforced && fault == Some(Thrown(Invoke(compute).e))
      ensures old(state) == Unforced && Invoke(compute).Gave? ==>
              var v := Invoke(compute).v;
              (v.Thenable? ==> state == Pending && fault == None) &&
              (Nullish(v) ==> state == Stuck(v) && fault == Some(NoThen(v))) &&
              (!v.Thenable? && !Nullish(v) ==> state == Ready(v) && fault == None)
    {
      if !value.Unset? {
        return None;
      }
      calls := calls + 1;
      var r := Invoke(compute);
      match r
      case Threw(e) =>
        fault := Some(Thrown(e));
      case Gave(v) =>
        value := Held(v);
        if Nullish(v) {
          state := Stuck(v);
          fault := Some(NoThen(v));
        } else if v.Thenable? {
          value := Chained(v.obj);
          state := Pending;
          fault := None;
        } else {
          finalValue := Some(v);
          state := Ready(v);
          fault := None;
        }
    }

    /** True exactly when the final value is there. */
    function IsReady(): (r: bool)
      requires Valid()
      reads this
      ensures r <==> state.Ready?
    {
      finalValue.Some?
    }

    /** The final value, or undefined while there is none. */
    function Get(): (v: Value)
      requires Valid()
      reads this
      ensures state.Ready? ==> v == state.v
      ensures !state.Ready? ==> v == Undefined
    {
      if finalValue.Some? then finalValue.value else Undefined
    }

    /** The success continuation attached to the thenable the compute procedure
        returned: it records the fulfilled value as the final value. The promise
        library runs it at most once, and never after a rejection. */
    method Fulfil(v: Value)
      requires Valid() && state == Pending && upstream == None
      modifies this
      ensures Valid() && state == Ready(v) && upstream == Some(Fulfilled(v))
      ensures value == old(value) && calls == old(calls)
    {
      finalValue := Some(v);
      state := Ready(v);
      upstream := Some(Fulfilled(v));
    }

    /** The thenable the compute procedure returned is rejected. No rejection handler
        is attached, so the cell does not change and stays not ready. */
    method Reject(e: Value)
      requires Valid() && state == Pending && upstream == None
      modifies this
      ensures Valid() && state == Pending && upstream == Some(Rejected(e))
      ensures value == old(value) && finalValue == old(finalValue) && calls == old(calls)
    {
      upstream := Some(Rejected(e));
    }

    /** Promise-style chaining. Always forces first; a synchronous fault goes to
        `onError` instead of propagating, and `then` returns what `onError` returns; a
        ready value is scheduled for `onSuccess`, and a pending value hands both
        callbacks to its chained promise, and in both cases `then` returns a promise. */
    method Then() returns (d: Delivery, ret: ThenReturn)
      requires Valid()
      modifies this
      ensures Valid() && upstream == old(upstream)
      ensures old(state) != Unforced ==>
              state == old(state) && value == old(value) && finalValue == old(finalValue) &&
              calls == old(calls)
      ensures old(state) == Unforced ==> calls == old(calls) + 1
      ensures state != Unforced || Invoke(compute).Threw?
      ensures old(state) == Unforced && Invoke(compute).Threw? ==>
              d == OnError(Thrown(Invoke(compute).e))
      ensures old(state) == Unforced && Invoke(compute).Gave? && Nullish(Invoke(compute).v) ==>
              d == OnError(NoThen(Invoke(compute).v))
      ensures old(state).Stuck? ==> d == Escapes(NoThen(old(state).v))
      ensures state.Ready? ==> d == OnSuccess(state.v)
      ensures state.Pending? ==> d == Delegated(value.source)
      ensures ret == NewPromise <==> state.Ready? || state.Pending?
      ensures ret == ErrorHandlerResult <==> old(state) == Unforced && !state.Ready? && !state.Pending?
      ensures ret == NoReturn <==> old(state).Stuck?
    {
      var fault := Force();
      if fault.Some? {
        return OnError(fault.value), ErrorHandlerResult;
      }
      if IsReady() {
        d, ret := OnSuccess(Get()), NewPromise;
      } else if value.Chained? {
        d, ret := Delegated(value.source), NewPromise;
      } else {
        // `_value` is the null or undefined the compute procedure returned: reading
        // its `then` throws, and this read is outside the try block.
        d, ret := Escapes(NoThen(value.v)), NoReturn;
      }
    }
  }

  /** `lazyFunction(f)(args...)`: without arguments the cell's compute procedure is
      `f` itself; with arguments it is the procedure that waits for all of them. */
  method LazyFunction(f: Fn, args: seq<Value>) returns (lv: LazyValue)
    ensures fresh(lv) && lv.Valid() && lv.state == Unforced && lv.calls == 0
    ensures |args| == 0 ==> lv.compute == Call(f)
    ensures |args| > 0 ==>
            lv.compute.AfterAll? && lv.compute.f == f && lv.compute.args == args &&
            fresh(lv.compute.chain)
  {
    if |args| > 0 {
      var chain := new Promise();
      lv := new LazyValue(AfterAll(f, args, chain));
    } else {
      lv := new LazyValue(Call(f));
    }
  }

  /** `lazyIf(cond, trueValue, falseValue)`: a fresh, unforced cell whose compute
      procedure selects a branch once the condition resolves. */
  method LazyIf(cond: Value, trueValue: Value, falseValue: Value) returns (lv: LazyValue)
    ensures fresh(lv) && lv.Valid() && lv.state == Unforced && lv.calls == 0
    ensures lv.compute.Choose? && lv.compute.cond == cond &&
            lv.compute.onTrue == trueValue && lv.compute.onFalse == falseValue &&
            fresh(lv.compute.chain)
  {
    var chain := new Promise();
    lv := new LazyValue(Choose(cond, trueValue, falseValue, chain));
  }

  /** `lazyIff(cond, trueCompute, falseCompute)`: wraps each branch procedure in a
      fresh cell, calling neither, and builds the conditional over the two cells. */
  method LazyIff(cond: Value, trueCompute: Fn, falseCompute: Fn)
    returns (lv: LazyValue, ghost onTrue: LazyValue, ghost onFalse: LazyValue)
    ensures fresh(lv) && fresh(onTrue) && fresh(onFalse) && onTrue != onFalse
    ensures onTrue.Valid() && onTrue.state == Unforced && onTrue.calls == 0 &&
            onTrue.compute == Call(trueCompute)
    ensures onFalse.Valid() && onFalse.state == Unforced && onFalse.calls == 0 &&
            onFalse.compute == Call(falseCompute)
    ensures lv.Valid() && lv.state == Unforced && lv.calls == 0
    ensures lv.compute.Choose? &&
            lv.compute == Choose(cond, Thenable(onTrue), Thenable(onFalse), lv.compute.chain)
    ensures fresh(lv.compute.chain) && lv.compute.chain != onTrue && lv.compute.chain != onFalse
    ensures cond.Thenable? ==> cond.obj != onTrue && cond.obj != onFalse
  {
    var t := new LazyValue(Call(trueCompute));
    var e := new LazyValue(Call(falseCompute));
    lv := LazyIf(cond, Thenable(t), Thenable(e));
    onTrue, onFalse := t, e;
  }
}
