/**
 * The argument handling shared by the attribute setters of sc.util.apen:
 * how a Max atom is read as an integer or a float, and the acceptance
 * rules of the validated setters.
 */
module Settings {

  import opened Wrappers

  /** A Max atom as a setter receives it. */
  datatype Atom = Long(n: int) | Float(x: real) | Symbol(name: string)

  /** What a setter reports: no argument given, an argument of the wrong
      type, a value outside its range (with the bound the error message
      prints), or the value was stored. */
  datatype SetterStatus =
    | NoArgument
    | BadType
    | TooLarge(limit: int)
    | TooSmall(limit: int)
    | NotPositive
    | Applied

  /** C's conversion of a double to `long`: truncation toward zero. */
  function Truncate(x: real): (n: int)
    ensures 0.0 <= x ==> n as real <= x < n as real + 1.0
    ensures x < 0.0 ==> n as real - 1.0 < x <= n as real
  {
    if x >= 0.0 then x.Floor else -((-x).Floor)
  }

  /** The integer a setter reads from an atom: a long as it is, a float
      truncated, a symbol refused. */
  function ReadLong(a: Atom): (v: Option<int>)
    ensures v.None? <==> a.Symbol?
    ensures a.Long? ==> v == Some(a.n)
    ensures a.Float? ==> (v.Some? &&
                          (0.0 <= a.x ==> v.value as real <= a.x < v.value as real + 1.0) &&
                          (a.x < 0.0 ==> v.value as real - 1.0 < a.x <= v.value as real))
  {
    match a
    case Long(n) => Some(n)
    case Float(x) => Some(Truncate(x))
    case Symbol(_) => None
  }

  /** `atom_getfloat`: the value of a numeric atom as a double, 0 for a symbol. */
  function ReadFloat(a: Atom): real
  {
    match a
    case Long(n) => n as real
    case Float(x) => x
    case Symbol(_) => 0.0
  }

  /** The clamp applied by the `calculate_on_input` and `size_warning`
      setters: the flag is set exactly when the argument is at least 1. */
  function Clamp01(v: int): (b: int)
    ensures 0 <= b <= 1
    ensures b == 1 <==> v >= 1
  {
    if v > 1 then 1 else if v < 0 then 0 else v
  }

  /** The guard of the `pattern_length` setter, with integer division.
      It holds exactly when the pattern leaves room for two patterns and
      one more sample pair in the buffer. */
  function PatternLengthAccepted(capacity: int, p: int): (ok: bool)
    ensures ok <==> 1 < p && 2 * p + 2 <= capacity
  {
    p <= capacity / 2 - 1 && p > 1
  }

  /** The guard of the `series_length` setter: the capacity exceeds 2m + 1
      and differs from the current one. */
  function CapacityAccepted(patternLength: int, current: int, c: int): bool
  {
    c > 2 * patternLength + 1 && c != current
  }

  /** The two guards are one room rule seen from two sides: a capacity the
      capacity setter accepts for pattern length m is one under which the
      pattern-length setter accepts m, and a pattern length accepted under
      a capacity lets the capacity setter accept that capacity from any
      other current value. */
  lemma GuardsAgree(m: int, current: int, c: int)
    requires 2 <= m
    ensures CapacityAccepted(m, current, c) ==> PatternLengthAccepted(c, m)
    ensures PatternLengthAccepted(c, m) && c != current ==> CapacityAccepted(m, current, c)
  {
  }
}
