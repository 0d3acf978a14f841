/**
 * The handful of Python values the rebalance procedure handles: option
 * strings, the default float threshold, `False` used as "unset", and the
 * scalars found in the cluster manager's decoded JSON responses.
 */
module PyValues {

  import opened Results

  datatype Value =
    | Null               // JSON null / Python None
    | Bool(b: bool)
    | Num(r: real)       // int or float; modelled exactly, without rounding
    | Str(s: string)

  /** Python truthiness, as used by `if x:` and `not x`. */
  predicate Truthy(v: Value) {
    match v
    case Null => false
    case Bool(b) => b
    case Num(r) => r != 0.0
    case Str(s) => s != ""
  }

  /** The numeric reading of a value; `bool` is a subclass of `int` in Python. */
  function Numeric(v: Value): (n: Option<real>)
    ensures n.Some? <==> v.Bool? || v.Num?
  {
    match v
    case Bool(b) => Some(if b then 1.0 else 0.0)
    case Num(r) => Some(r)
    case _ => None
  }

  /**
   * Python's `==` on these values: numbers (and booleans) compare by value,
   * strings by content, `None` only with itself; a string never equals a
   * number, so `"0.9" == 0.9` is false.
   */
  predicate Equal(a: Value, b: Value) {
    if Numeric(a).Some? && Numeric(b).Some? then Numeric(a).value == Numeric(b).value
    else if a.Str? && b.Str? then a.s == b.s
    else a.Null? && b.Null?
  }

  /** `==` is an equivalence relation on these values, and coincides with identity on strings. */
  lemma EqualIsEquivalence(a: Value, b: Value, c: Value)
    ensures Equal(a, a)
    ensures Equal(a, b) ==> Equal(b, a)
    ensures Equal(a, b) && Equal(b, c) ==> Equal(a, c)
    ensures a.Str? ==> (Equal(a, b) <==> b == a)
  {
  }

  /** A string is never `==` to a number, whatever its text. */
  lemma StringNeverEqualsNumber(s: string, r: real)
    ensures !Equal(Str(s), Num(r))
  {
  }
}
