/** The JavaScript values that flow through the lazy-value library: what a compute
    procedure returns or throws, what a lifted function receives, what a condition
    resolves to. */
module Values {

  datatype Option<T> = None | Some(value: T)

  /** A value as the library sees it. Every thenable (a promise, or a lazy value, which
      also has a `then` member) is known by its object identity; the tag `Thenable`
      takes the place of the duck-typed test for a `then` member. Numbers are
      restricted to integers. */
  datatype Value =
    | Undefined
    | Null
    | Bool(b: bool)
    | Num(n: int)
    | Str(s: string)
    | Thenable(obj: object)

  /** The two values on which reading a member throws a TypeError. */
  predicate Nullish(v: Value) {
    v.Undefined? || v.Null?
  }

  /** The host's conditional test (`c ? x : y`) on the values above. */
  function Truthy(v: Value): (b: bool)
    ensures Nullish(v) ==> !b
    ensures v.Thenable? ==> b
    ensures v.Bool? ==> b == v.b
    ensures v.Num? ==> (b <==> v.n != 0)
    ensures v.Str? ==> (b <==> v.s != "")
  {
    match v
    case Undefined => false
    case Null => false
    case Bool(b) => b
    case Num(n) => n != 0
    case Str(s) => s != ""
    case Thenable(_) => true
  }

  /** What a call into user code does: it returns a value or throws one. */
  datatype Returned = Gave(v: Value) | Threw(e: Value)

  /** How a thenable settles. */
  datatype Outcome = Fulfilled(v: Value) | Rejected(e: Value)
}
