/**
  The concrete cases of the repository's test suite (test_sort.py), stated
  about the model. Int and float arguments are both exact numbers here.
 */
module SortExamples {
  import opened Package
  import opened Sorter

  /** `sort` on four numbers. */
  function SortNums(width: real, height: real, length: real, mass: real): Outcome
  {
    Sort(Num(width), Num(height), Num(length), Num(mass))
  }

  /** One clean case per stack. */
  lemma CoreRoutingCases()
    ensures SortNums(10.0, 10.0, 10.0, 5.0) == Ok(Standard)
    ensures SortNums(100.0, 100.0, 100.0, 10.0) == Ok(Special)
    ensures SortNums(10.0, 10.0, 10.0, 20.0) == Ok(Special)
    ensures SortNums(100.0, 100.0, 100.0, 20.0) == Ok(Rejected)
  {
  }

  /** Bulky by volume and by each single dimension, at and just around the limits. */
  lemma BulkyCases()
    ensures SortNums(100.0, 100.0, 100.0, 1.0) == Ok(Special)
    ensures SortNums(100.0, 100.0, 100.01, 1.0) == Ok(Special)
    ensures SortNums(99.0, 100.0, 100.0, 1.0) == Ok(Standard)
    ensures SortNums(150.0, 1.0, 1.0, 1.0) == Ok(Special)
    ensures SortNums(1.0, 150.0, 1.0, 1.0) == Ok(Special)
    ensures SortNums(1.0, 1.0, 150.0, 1.0) == Ok(Special)
    ensures SortNums(149.99, 1.0, 1.0, 1.0) == Ok(Standard)
    ensures SortNums(200.0, 1.0, 1.0, 1.0) == Ok(Special)
  {
  }

  /** The mass limit, at, just below and well above it. */
  lemma HeavyCases()
    ensures SortNums(1.0, 1.0, 1.0, 20.0) == Ok(Special)
    ensures SortNums(1.0, 1.0, 1.0, 19.99) == Ok(Standard)
    ensures SortNums(1.0, 1.0, 1.0, 100.0) == Ok(Special)
  {
  }

  /** The four corners of the bulky/heavy space, and combined triggers. */
  lemma BoundaryAndCombinedCases()
    ensures SortNums(99.0, 99.0, 99.0, 19.0) == Ok(Standard)
    ensures SortNums(100.0, 100.0, 100.0, 19.0) == Ok(Special)
    ensures SortNums(99.0, 99.0, 99.0, 20.0) == Ok(Special)
    ensures SortNums(100.0, 100.0, 100.0, 20.0) == Ok(Rejected)
    ensures SortNums(150.0, 1.0, 1.0, 20.0) == Ok(Rejected)
    ensures SortNums(150.0, 150.0, 150.0, 1.0) == Ok(Special)
    ensures SortNums(150.0, 1.0, 1.0, 25.0) == Ok(Rejected)
    ensures SortNums(100.0, 100.0, 100.0, 50.0) == Ok(Rejected)
    ensures SortNums(200.0, 200.0, 200.0, 5.0) == Ok(Special)
    ensures SortNums(200.0, 200.0, 200.0, 30.0) == Ok(Rejected)
  {
  }

  /** Zeros, very large values and fractional values. */
  lemma EdgeCases()
    ensures SortNums(0.0, 0.0, 0.0, 0.0) == Ok(Standard)
    ensures SortNums(0.0, 0.0, 0.0, 25.0) == Ok(Special)
    ensures SortNums(150.0, 0.0, 0.0, 1.0) == Ok(Special)
    ensures SortNums(10000.0, 10000.0, 10000.0, 1.0) == Ok(Special)
    ensures SortNums(10000.0, 10000.0, 10000.0, 10000.0) == Ok(Rejected)
    ensures SortNums(125.0, 100.0, 80.0, 1.0) == Ok(Special)
    ensures SortNums(124.99, 100.0, 80.0, 1.0) == Ok(Standard)
    ensures SortNums(10.0, 10.5, 10.0, 5.5) == Ok(Standard)
  {
  }

  /** Negative numbers and non-numbers, each reported against its parameter. */
  lemma ErrorCases()
    ensures SortNums(-1.0, 10.0, 10.0, 5.0) == ValueErr(Width)
    ensures SortNums(10.0, -1.0, 10.0, 5.0) == ValueErr(Height)
    ensures SortNums(10.0, 10.0, -1.0, 5.0) == ValueErr(Length)
    ensures SortNums(10.0, 10.0, 10.0, -5.0) == ValueErr(Mass)
    ensures Sort(NonNum("str"), Num(10.0), Num(10.0), Num(5.0)) == TypeErr(Width)
    ensures Sort(Num(10.0), Num(10.0), Num(10.0), NonNum("NoneType")) == TypeErr(Mass)
    ensures Sort(Num(10.0), NonNum("list"), Num(10.0), Num(5.0)) == TypeErr(Height)
  {
  }

  /**
    Validation is per parameter in order, type before sign: a negative width
    is reported even when the height is not a number.
   */
  lemma EarlierParameterWins()
    ensures Sort(Num(-1.0), NonNum("str"), Num(10.0), Num(5.0)) == ValueErr(Width)
    ensures Sort(NonNum("str"), Num(-1.0), Num(10.0), Num(5.0)) == TypeErr(Width)
  {
  }

  /** The labels the test suite compares against. */
  lemma LabelCases()
    ensures SortLabel(Num(10.0), Num(10.0), Num(10.0), Num(5.0)) == Some("STANDARD")
    ensures SortLabel(Num(100.0), Num(100.0), Num(100.0), Num(10.0)) == Some("SPECIAL")
    ensures SortLabel(Num(100.0), Num(100.0), Num(100.0), Num(20.0)) == Some("REJECTED")
    ensures SortLabel(Num(-1.0), Num(10.0), Num(10.0), Num(5.0)) == None
  {
  }
}
