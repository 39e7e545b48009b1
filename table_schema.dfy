/** Per-tier table limits: bet bounds (in hundredths), seats and the spin
    interval. A tier value outside the four named ones raises
    `ArgumentOutOfRangeException` in every lookup but the spin interval. */
module TableSchema {
  import opened Wrappers

  datatype TableTier = Tier1 | Tier2 | Tier3 | Tier4 | Undefined(code: int)

  const OutOfRange: string := "Specified argument was out of the range of valid values."

  /** Position of a named tier, 1 for the cheapest. */
  function Rank(tier: TableTier): (r: nat)
    ensures tier.Undefined? <==> r == 0
    ensures r <= 4
  {
    match tier
    case Tier1 => 1
    case Tier2 => 2
    case Tier3 => 3
    case Tier4 => 4
    case Undefined(_) => 0
  }

  /** The smallest bet a table of the tier takes; positive for every named tier. */
  function MinBet(tier: TableTier): (r: Result<int, string>)
    ensures r.Failure? <==> Rank(tier) == 0
    ensures r.Failure? ==> r.error == OutOfRange
    ensures r.Success? ==> r.value > 0
  {
    match tier
    case Tier1 => Success(10_00)
    case Tier2 => Success(20_00)
    case Tier3 => Success(30_00)
    case Tier4 => Success(50_00)
    case Undefined(_) => Failure(OutOfRange)
  }

  /** The largest bet: ten times the smallest, hence above it. */
  function MaxBet(tier: TableTier): (r: Result<int, string>)
    ensures r.Failure? <==> Rank(tier) == 0
    ensures r.Failure? ==> r.error == OutOfRange
    ensures r.Success? ==> r.value == 10 * MinBet(tier).value > MinBet(tier).value
  {
    match tier
    case Tier1 => Success(100_00)
    case Tier2 => Success(200_00)
    case Tier3 => Success(300_00)
    case Tier4 => Success(500_00)
    case Undefined(_) => Failure(OutOfRange)
  }

  /** How many players a table of the tier seats; at least one for every named tier. */
  function MaxSeats(tier: TableTier): (r: Result<nat, string>)
    ensures r.Failure? <==> Rank(tier) == 0
    ensures r.Failure? ==> r.error == OutOfRange
    ensures r.Success? ==> r.value > 0
  {
    match tier
    case Tier1 => Success(40)
    case Tier2 => Success(20)
    case Tier3 => Success(10)
    case Tier4 => Success(4)
    case Undefined(_) => Failure(OutOfRange)
  }

  /** Seconds between spins: the same for every tier, undefined ones included. */
  function SpinIntervalSec(tier: TableTier): (sec: nat)
    ensures sec == 30
  {
    30
  }

  /** The minimum bet of a named tier is positive and grows with the tier. */
  lemma MinBetGrows(t: TableTier, u: TableTier)
    requires 0 < Rank(t) < Rank(u)
    ensures 0 < MinBet(t).value < MinBet(u).value
  {
  }

  /** Seats shrink strictly as the tier rises, and every named tier has one. */
  lemma SeatsShrink(t: TableTier, u: TableTier)
    requires 0 < Rank(t) < Rank(u)
    ensures MaxSeats(t).value > MaxSeats(u).value > 0
  {
  }
}
