/**
 * The literal values the parser builds (src/expr.rs), with the Float and
 * Atom variants the parser constructs, their decimal rendering and their
 * variant-wise equality.
 */
module Exprs {
  import opened Numerals

  /** A parsed literal. A Float's value is kept as an exact real number. */
  datatype Expr = Integer(value: int) | Float(number: real) | Atom(name: string)

  /** The rendering of an Integer: its decimal text, signed when negative. */
  function Display(e: Expr): (s: string)
    requires e.Integer?
    ensures IsDecimalOf(s, e.value)
  {
    if e.value < 0 then "-" + Decimal(-e.value) else Decimal(e.value)
  }

  /** Variant-wise equality: same variant and equal payloads. */
  function Equal(a: Expr, b: Expr): (same: bool)
    ensures same <==> a == b
    ensures a.Integer? && b.Integer? ==> (same <==> a.value == b.value)
  {
    match (a, b)
    case (Integer(l), Integer(r)) => l == r
    case (Float(l), Float(r)) => l == r
    case (Atom(l), Atom(r)) => l == r
    case _ => false
  }

  /** Integer(10) renders as "10". */
  lemma DisplayInteger()
    ensures Display(Integer(10)) == "10"
  {
    assert Decimal(1) == "1";
  }

  /** Equality is reflexive, and Integers with different payloads differ. */
  lemma EqualIntegers()
    ensures Equal(Integer(32), Integer(32))
    ensures !Equal(Integer(1), Integer(2))
  {
  }

  /** Rendering tells Integers apart: distinct values have distinct texts. */
  lemma {:induction false} DisplayInjective(a: int, b: int)
    requires Display(Integer(a)) == Display(Integer(b))
    ensures a == b
  {
  }
}
