/** The Height setter's and Grow's guards over IEEE 754 doubles, reduced to
    what the guards can tell apart: finite values (without rounding), the
    two infinities and NaN. Every ordered comparison with NaN is false, so
    the guard `value <= 0 || value > 115.7` lets NaN through. */
module DoubleHeight {
  import opened Plants

  datatype Double = Finite(value: real) | PositiveInfinity | NegativeInfinity | NaN

  /** `a <= b` on doubles. */
  predicate LessOrEqual(a: Double, b: Double) {
    match (a, b)
    case (NaN, _) => false
    case (_, NaN) => false
    case (NegativeInfinity, _) => true
    case (_, PositiveInfinity) => true
    case (PositiveInfinity, _) => false
    case (_, NegativeInfinity) => false
    case (Finite(x), Finite(y)) => x <= y
  }

  /** `a > b` on doubles: false whenever either side is NaN. */
  predicate Greater(a: Double, b: Double) {
    a != NaN && b != NaN && !LessOrEqual(a, b)
  }

  /** `a + b` on doubles, without rounding. */
  function Add(a: Double, b: Double): Double {
    match (a, b)
    case (NaN, _) => NaN
    case (_, NaN) => NaN
    case (PositiveInfinity, NegativeInfinity) => NaN
    case (NegativeInfinity, PositiveInfinity) => NaN
    case (PositiveInfinity, _) => PositiveInfinity
    case (_, PositiveInfinity) => PositiveInfinity
    case (NegativeInfinity, _) => NegativeInfinity
    case (_, NegativeInfinity) => NegativeInfinity
    case (Finite(x), Finite(y)) => Finite(x + y)
  }

  // As written

  /** The Height setter accepts `v` unless `v <= 0 || v > 115.7`. */
  predicate HeightAcceptedAsWritten(v: Double) {
    !(LessOrEqual(v, Finite(0.0)) || Greater(v, Finite(MaxHeight)))
  }

  /** Grow: refuse `growth <= 0`, then `Height += growth` through the setter. */
  function HeightAfterGrowthAsWritten(h: Double, growth: Double): Double {
    if LessOrEqual(growth, Finite(0.0)) then h
    else if HeightAcceptedAsWritten(Add(h, growth)) then Add(h, growth)
    else h
  }

  /** On every value but NaN the guard as written is the range (0, 115.7]. */
  lemma HeightGuardAsWrittenOnNumbers(v: Double)
    requires v != NaN
    ensures HeightAcceptedAsWritten(v) <==> v.Finite? && ValidHeight(v.value)
  {
  }

  /** Grow(double.NaN) on any valid plant passes both guards and leaves the
      height NaN: the Height setter accepts NaN. */
  lemma NaNGrowthCorruptsHeight(h: real)
    requires ValidHeight(h)
    ensures HeightAcceptedAsWritten(NaN)
    ensures HeightAfterGrowthAsWritten(Finite(h), NaN) == NaN
  {
  }

  // Corrected

  /** The rule the setter's message states: a number in (0, 115.7]. */
  function HeightAccepted(v: Double): (b: bool)
    ensures b <==> v.Finite? && CheckHeight(v.value) == Pass
    ensures b ==> HeightAcceptedAsWritten(v)
    ensures v != NaN ==> (b <==> HeightAcceptedAsWritten(v))
  {
    v.Finite? && 0.0 < v.value <= MaxHeight
  }

  function HeightAfterGrowthCorrected(h: Double, growth: Double): Double {
    if LessOrEqual(growth, Finite(0.0)) then h
    else if HeightAccepted(Add(h, growth)) then Add(h, growth)
    else h
  }

  /** With the corrected guard no growth, NaN and infinities included, takes
      a valid height out of (0, 115.7], and on finite growth the result is
      the real-valued HeightAfterGrowth the Plant class is modelled with. */
  lemma CorrectedGrowthKeepsHeightValid(h: real, growth: Double)
    requires ValidHeight(h)
    ensures HeightAfterGrowthCorrected(Finite(h), growth).Finite?
    ensures ValidHeight(HeightAfterGrowthCorrected(Finite(h), growth).value)
    ensures growth.Finite? ==>
              HeightAfterGrowthCorrected(Finite(h), growth).value
                == HeightAfterGrowth(h, growth.value)
  {
  }
}
