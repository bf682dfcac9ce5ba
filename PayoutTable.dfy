/**
 * The fixed Keno payout table: for each playable spot count, the payout in
 * whole currency units for each match count that pays. Built once, never
 * changed; any combination it does not list pays nothing.
 */
module PayoutTable {

  /** Spot count -> (match count -> payout). */
  const Payouts: map<int, map<int, int>> :=
    map[
      1 := map[1 := 2],
      4 := map[2 := 1, 3 := 5, 4 := 75],
      8 := map[4 := 2, 5 := 12, 6 := 50, 7 := 750, 8 := 10000],
      10 := map[0 := 5, 5 := 2, 6 := 15, 7 := 40, 8 := 450, 9 := 4250, 10 := 100000]
    ]

  /**
   * Two-level lookup with a default of 0 at each level. Total: defined for
   * every pair of integers. Only listed combinations pay, every listed one
   * pays something, and a paying match count is one a ticket of that many
   * spots can actually reach.
   */
  function GetPayout(spots: int, matches: int): (r: int)
    ensures r >= 0
    ensures r > 0 <==> spots in Payouts && matches in Payouts[spots]
    ensures r > 0 ==> 0 <= matches <= spots
  {
    if spots !in Payouts then 0
    else if matches !in Payouts[spots] then 0
    else Payouts[spots][matches]
  }

  /** The 1-spot row: one match pays 2, anything else (no match included) pays 0. */
  lemma OneSpotRow(matches: int)
    ensures GetPayout(1, matches) == if matches == 1 then 2 else 0
  {
  }

  /** The 4-spot row. */
  lemma FourSpotRow(matches: int)
    ensures GetPayout(4, matches) ==
      match matches
      case 2 => 1
      case 3 => 5
      case 4 => 75
      case _ => 0
  {
  }

  /** The 8-spot row; three matches or fewer pay 0. */
  lemma EightSpotRow(matches: int)
    ensures GetPayout(8, matches) ==
      match matches
      case 4 => 2
      case 5 => 12
      case 6 => 50
      case 7 => 750
      case 8 => 10000
      case _ => 0
  {
  }

  /** The 10-spot row; matching none of ten pays 5, one to four matches pay 0. */
  lemma TenSpotRow(matches: int)
    ensures GetPayout(10, matches) ==
      match matches
      case 0 => 5
      case 5 => 2
      case 6 => 15
      case 7 => 40
      case 8 => 450
      case 9 => 4250
      case 10 => 100000
      case _ => 0
  {
  }

  /** A spot count without a row pays 0 whatever the match count. */
  lemma UnlistedSpotsPayNothing(spots: int, matches: int)
    requires spots != 1 && spots != 4 && spots != 8 && spots != 10
    ensures GetPayout(spots, matches) == 0
  {
  }

  /** In every row, matching all spots pays the most. */
  lemma AllSpotsMatchedPaysMost(spots: int, matches: int)
    requires spots in Payouts
    ensures GetPayout(spots, matches) <= GetPayout(spots, spots)
  {
  }
}
