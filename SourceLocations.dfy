// SourceLocation (src/FuManchu/Text/SourceLocation.cs): an absolute offset,
// a zero-based line and a zero-based column, with the struct's arithmetic.
module SourceLocations {
  datatype SourceLocation = SourceLocation(absolute: int, line: int, character: int)

  const Zero := SourceLocation(0, 0, 0)
  const Undefined := SourceLocation(-1, -1, -1)

  /** Add: offsets and lines are summed; the column of the right operand is
      kept when it starts a new line, otherwise the columns are summed. */
  function Add(left: SourceLocation, right: SourceLocation): SourceLocation {
    if right.line > 0 then
      SourceLocation(left.absolute + right.absolute, left.line + right.line, right.character)
    else
      SourceLocation(left.absolute + right.absolute, left.line + right.line, left.character + right.character)
  }

  /** Subtract: the inverse of Add; the column is only subtracted on the same line. */
  function Subtract(left: SourceLocation, right: SourceLocation): SourceLocation {
    SourceLocation(left.absolute - right.absolute, left.line - right.line,
      if left.line != right.line then left.character else left.character - right.character)
  }

  /** CompareTo: the sign of the comparison of the absolute offsets (Int32.CompareTo). */
  function CompareTo(a: SourceLocation, other: SourceLocation): (r: int)
    ensures -1 <= r <= 1
    ensures r < 0 <==> a.absolute < other.absolute
    ensures r == 0 <==> a.absolute == other.absolute
  {
    if a.absolute < other.absolute then -1 else if a.absolute > other.absolute then 1 else 0
  }

  /** Equals (and operator ==): all three components agree. */
  predicate Equals(a: SourceLocation, other: SourceLocation) {
    a.absolute == other.absolute && a.line == other.line && a.character == other.character
  }

  predicate Less(a: SourceLocation, b: SourceLocation) { CompareTo(a, b) < 0 }
  predicate Greater(a: SourceLocation, b: SourceLocation) { CompareTo(a, b) > 0 }

  /** Adding back what was subtracted restores the location, as long as the
      subtracted location is not on a later line. */
  lemma AddSubtractRoundTrip(left: SourceLocation, right: SourceLocation)
    requires left.line >= right.line
    ensures Add(right, Subtract(left, right)) == left
  {
  }

  /** The round trip fails when the subtracted location is on a later line
      and has a non-zero column. */
  lemma AddSubtractNeedsOrderedLines()
    ensures Add(SourceLocation(5, 2, 1), Subtract(SourceLocation(1, 1, 1), SourceLocation(5, 2, 1)))
            != SourceLocation(1, 1, 1)
  {
  }

  /** Subtracting the left operand of a sum gives back the right operand when
      that operand does not move backwards in lines. */
  lemma SubtractAddRoundTrip(left: SourceLocation, right: SourceLocation)
    requires right.line >= 0
    ensures Subtract(Add(left, right), left) == right
  {
  }

  /** Zero is a two-sided identity of Add. */
  lemma AddZero(loc: SourceLocation)
    ensures Add(Zero, loc) == loc && Add(loc, Zero) == loc
  {
  }

  /** Add is associative on locations that never move backwards in lines: the
      offset of a concatenation does not depend on how it is grouped. */
  lemma AddAssociative(a: SourceLocation, b: SourceLocation, c: SourceLocation)
    requires b.line >= 0 && c.line >= 0
    ensures Add(Add(a, b), c) == Add(a, Add(b, c))
  {
  }

  /** CompareTo only looks at offsets: equal locations compare as 0, but two
      locations that compare as 0 need not be equal. */
  lemma CompareToIgnoresLineAndColumn(a: SourceLocation, b: SourceLocation)
    ensures Equals(a, b) ==> CompareTo(a, b) == 0
    ensures CompareTo(a, b) == -CompareTo(b, a)
    ensures CompareTo(SourceLocation(3, 0, 3), SourceLocation(3, 1, 0)) == 0
    ensures !Equals(SourceLocation(3, 0, 3), SourceLocation(3, 1, 0))
  {
  }

  /** Equals is exactly structural equality of the three components. */
  lemma EqualsIsIdentity(a: SourceLocation, b: SourceLocation)
    ensures Equals(a, b) <==> a == b
  {
  }

  /** The worked examples of SourceLocationFacts. */
  lemma AddAndSubtractExamples()
    ensures Add(SourceLocation(1, 1, 1), SourceLocation(4, 1, 1)) == SourceLocation(5, 2, 1)
    ensures Subtract(SourceLocation(5, 2, 1), SourceLocation(4, 1, 1)) == SourceLocation(1, 1, 1)
  {
  }
}
