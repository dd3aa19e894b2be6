/**
 * The integer-only literal of src/value.rs, a duplicate of the parser's
 * Integer literal with the same rendering and equality.
 */
module Values {
  import opened Numerals

  datatype Value = Integer(value: int)

  /** The rendering of a Value: its decimal text, signed when negative. */
  function Display(v: Value): (s: string)
    ensures IsDecimalOf(s, v.value)
  {
    if v.value < 0 then "-" + Decimal(-v.value) else Decimal(v.value)
  }

  /** Two Values are equal exactly when their integers are. */
  function Equal(a: Value, b: Value): (same: bool)
    ensures same <==> a.value == b.value
    ensures same <==> a == b
  {
    match (a, b)
    case (Integer(l), Integer(r)) => l == r
  }

  /** Integer(10) renders as "10". */
  lemma DisplayInteger()
    ensures Display(Integer(10)) == "10"
  {
    assert Decimal(1) == "1";
  }

  /** Integer(32) equals itself. */
  lemma EqualIntegers()
    ensures Equal(Integer(32), Integer(32))
  {
  }

  /** Integer(1) and Integer(2) differ. */
  lemma NotEqualIntegers()
    ensures !Equal(Integer(1), Integer(2))
  {
  }
}
