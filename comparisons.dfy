/** The three-way comparisons the stores sort with. Amounts, prices and ids are
    integers here (amounts and prices as whole cents), so `Double.compare` and
    `Integer.compare` are the same comparison; labels compare as
    `String.compareTo` does. */
module Comparisons {

  /** `Double.compare(x, y)` and `Integer.compare(x, y)`: the sign says how
      `x` stands to `y`. */
  function Compare(x: int, y: int): (r: int)
    ensures r < 0 <==> x < y
    ensures r == 0 <==> x == y
    ensures r > 0 <==> x > y
  {
    if x < y then -1 else if x == y then 0 else 1
  }

  /** `String.compareTo(a, b)`: the difference of the first two characters
      that differ, or, when one string is a prefix of the other, the
      difference of the lengths. */
  function CompareStrings(a: string, b: string): int
    decreases |a|
  {
    if a == [] || b == [] then |a| - |b|
    else if a[0] != b[0] then a[0] as int - b[0] as int
    else CompareStrings(a[1..], b[1..])
  }

  /** Swapping the arguments negates the result. */
  lemma {:induction false} CompareStringsAntisymmetric(a: string, b: string)
    ensures CompareStrings(b, a) == -CompareStrings(a, b)
    decreases |a|
  {
    if a != [] && b != [] && a[0] == b[0] {
      CompareStringsAntisymmetric(a[1..], b[1..]);
    }
  }

  /** Two labels compare as equal exactly when they are the same string. */
  lemma {:induction false} CompareStringsZero(a: string, b: string)
    ensures CompareStrings(a, b) == 0 <==> a == b
    decreases |a|
  {
    if a != [] && b != [] && a[0] == b[0] {
      CompareStringsZero(a[1..], b[1..]);
      assert a == [a[0]] + a[1..] && b == [b[0]] + b[1..];
    }
  }

  /** "Not after" is transitive, so label order is a total preorder. */
  lemma {:induction false} CompareStringsTransitive(a: string, b: string, c: string)
    requires CompareStrings(a, b) <= 0 && CompareStrings(b, c) <= 0
    ensures CompareStrings(a, c) <= 0
    decreases |a|
  {
    if a != [] && b != [] && c != [] && a[0] == b[0] && b[0] == c[0] {
      CompareStringsTransitive(a[1..], b[1..], c[1..]);
    }
  }
}
