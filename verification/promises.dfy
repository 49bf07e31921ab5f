/** The part of the host promise library (Q) that the lazy-value combinators rely on:
    resolving a value, waiting for all of several values, and adopting what a `then`
    handler returns. Time is not modelled: an `Env` is a snapshot of which thenables
    have settled so far, and how. */
module Promises {
  import opened Values

  type Env = map<object, Outcome>

  /** What `Q(v)` has settled to in `env`: a thenable as the environment says (None
      while it is still pending), any other value fulfilled with itself at once. */
  function Resolve(v: Value, env: Env): (o: Option<Outcome>)
    ensures !v.Thenable? ==> o == Some(Fulfilled(v))
    ensures v.Thenable? ==> (o.Some? <==> v.obj in env)
    ensures v.Thenable? && o.Some? ==> o.value == env[v.obj]
  {
    if v.Thenable? then
      if v.obj in env then Some(env[v.obj]) else None
    else
      Some(Fulfilled(v))
  }

  predicate FulfilledAt(args: seq<Value>, env: Env, i: int)
    requires 0 <= i < |args|
  {
    Resolve(args[i], env).Some? && Resolve(args[i], env).value.Fulfilled?
  }

  predicate RejectedAt(args: seq<Value>, env: Env, i: int)
    requires 0 <= i < |args|
  {
    Resolve(args[i], env).Some? && Resolve(args[i], env).value.Rejected?
  }

  /** The state of `Q.all(args)`. */
  datatype Joint = AllFulfilled(vs: seq<Value>) | OneRejected(e: Value) | SomePending

  /** `Q.all(args)` in `env`: rejected as soon as one argument is rejected, fulfilled
      with the values in positional order once every argument is fulfilled, pending
      otherwise. When several arguments are rejected, the first one in position is
      taken. */
  function All(args: seq<Value>, env: Env): (j: Joint)
    ensures j.AllFulfilled? ==> |j.vs| == |args|
    decreases |args|
  {
    if args == [] then AllFulfilled([])
    else
      var head := Resolve(args[0], env);
      var rest := All(args[1..], env);
      if head.Some? && head.value.Rejected? then OneRejected(head.value.e)
      else if rest.OneRejected? then rest
      else if head.None? || rest.SomePending? then SomePending
      else AllFulfilled([head.value.v] + rest.vs)
  }

  /** `Q.all` is fulfilled exactly when every argument is, and then with every
      argument's value in its original position. */
  lemma {:induction false} AllFulfilledExactly(args: seq<Value>, env: Env, vs: seq<Value>)
    ensures All(args, env) == AllFulfilled(vs) <==>
            |vs| == |args| && forall i :: 0 <= i < |args| ==> Resolve(args[i], env) == Some(Fulfilled(vs[i]))
  {
    if args == [] {
    } else {
      var tail := All(args[1..], env);
      if |vs| == |args| && forall i :: 0 <= i < |args| ==> Resolve(args[i], env) == Some(Fulfilled(vs[i])) {
        AllFulfilledExactly(args[1..], env, vs[1..]);
        forall i | 0 <= i < |args| - 1
          ensures Resolve(args[1..][i], env) == Some(Fulfilled(vs[1..][i]))
        {
          assert Resolve(args[i + 1], env) == Some(Fulfilled(vs[i + 1]));
        }
        assert tail == AllFulfilled(vs[1..]);
        assert vs == [vs[0]] + vs[1..];
      }
      if All(args, env) == AllFulfilled(vs) {
        assert tail.AllFulfilled?;
        AllFulfilledExactly(args[1..], env, tail.vs);
        assert vs == [Resolve(args[0], env).value.v] + tail.vs;
        forall i | 0 <= i < |args|
          ensures Resolve(args[i], env) == Some(Fulfilled(vs[i]))
        {
          if i > 0 {
            assert args[1..][i - 1] == args[i];
          }
        }
      }
    }
  }

  /** `Q.all` is rejected exactly when some argument is, and then with the error of the
      first rejected argument. */
  lemma {:induction false} AllRejectedExactly(args: seq<Value>, env: Env)
    ensures All(args, env).OneRejected? <==> exists i :: 0 <= i < |args| && RejectedAt(args, env, i)
    ensures All(args, env).OneRejected? ==>
            exists i :: 0 <= i < |args| && RejectedAt(args, env, i) &&
                        Resolve(args[i], env).value.e == All(args, env).e &&
                        forall k :: 0 <= k < i ==> !RejectedAt(args, env, k)
  {
    if args != [] {
      var tail := args[1..];
      AllRejectedExactly(tail, env);
      forall k | 0 <= k < |tail|
        ensures RejectedAt(tail, env, k) == RejectedAt(args, env, k + 1)
      {
        assert tail[k] == args[k + 1];
      }
      if RejectedAt(args, env, 0) {
        assert All(args, env).OneRejected?;
      } else if All(tail, env).OneRejected? {
        var i :| 0 <= i < |tail| && RejectedAt(tail, env, i) &&
                 Resolve(tail[i], env).value.e == All(tail, env).e &&
                 forall k :: 0 <= k < i ==> !RejectedAt(tail, env, k);
        assert RejectedAt(args, env, i + 1);
        assert forall k :: 0 <= k < i + 1 ==> !RejectedAt(args, env, k) by {
          forall k | 0 <= k < i + 1 ensures !RejectedAt(args, env, k) {
            if k > 0 {
              assert !RejectedAt(tail, env, k - 1);
            }
          }
        }
      } else {
        forall i | 0 <= i < |args| ensures !RejectedAt(args, env, i) {
          if i > 0 {
            assert !RejectedAt(tail, env, i - 1);
          }
        }
      }
    }
  }

  /** How far a promise chain has got. */
  datatype Progress = Unsettled | Settles(o: Outcome)

  /** How Q settles the promise of a `then` handler that ended with `r`: a throw rejects
      it, a returned thenable is adopted (its `then` is called and its outcome taken
      over), any other value fulfils it. */
  function Adopt(r: Returned, env: Env): (p: Progress)
    ensures r.Threw? ==> p == Settles(Rejected(r.e))
    ensures r.Gave? && !r.v.Thenable? ==> p == Settles(Fulfilled(r.v))
    ensures p == Unsettled <==> r.Gave? && r.v.Thenable? && r.v.obj !in env
    ensures r.Gave? && r.v.Thenable? && r.v.obj in env ==> p == Settles(env[r.v.obj])
  {
    match r
    case Threw(e) => Settles(Rejected(e))
    case Gave(v) =>
      var o := Resolve(v, env);
      if o.Some? then Settles(o.value) else Unsettled
  }

  /** The thenable whose `then` Q calls when it adopts the result `r`. */
  function Adopted(r: Returned): set<object> {
    if r.Gave? && r.v.Thenable? then {r.v.obj} else {}
  }

  /** The thenables among `args`: `Q.all` calls `then` on each of them. */
  function ThenablesIn(args: seq<Value>): set<object> {
    set i | 0 <= i < |args| && args[i].Thenable? :: args[i].obj
  }
}
