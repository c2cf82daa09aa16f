/** The delivery fee of utils/distance.ts: a base charge plus a charge per
    kilometre of route distance. Distances and fees are exact reals. */
module Fee {

  const BaseFee: real := 500.0
  const PerKm: real := 100.0

  /** `calculateFee`: total, never fails, and does not clamp a negative
      distance, so the base charge is reached exactly at distance 0 and
      exceeded exactly for positive distances. */
  function CalculateFee(distanceKm: real): (fee: real)
    ensures fee >= BaseFee <==> distanceKm >= 0.0
    ensures fee == BaseFee <==> distanceKm == 0.0
  {
    BaseFee + distanceKm * PerKm
  }

  /** The fee grows by `PerKm` for every extra kilometre. */
  lemma FeeIsAffine(a: real, b: real)
    ensures CalculateFee(a) - CalculateFee(b) == PerKm * (a - b)
  {
  }

  /** A longer route always costs strictly more. */
  lemma FeeStrictlyIncreasing(a: real, b: real)
    requires a < b
    ensures CalculateFee(a) < CalculateFee(b)
  {
  }

  /** The fee at 0 km, 5 km and 10 km. */
  lemma FeeExamples()
    ensures CalculateFee(0.0) == 500.0
    ensures CalculateFee(5.0) == 1000.0
    ensures CalculateFee(10.0) == 1500.0
  {
  }
}
