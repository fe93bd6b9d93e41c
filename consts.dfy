/**
 * The program constants that drive every Garage split and the round
 * settlement, the basis-point fee helper every operation repeats, and the
 * whale-tax tier lookup.
 */
module Consts {
  import opened Primitives

  /** One FUEL is 10^11 indivisible units ("drops"). */
  const ONE_FUEL: U64 := 100_000_000_000
  const ONE_MINUTE: I64 := 60
  const ONE_HOUR: I64 := 60 * ONE_MINUTE
  const ONE_DAY: I64 := 24 * ONE_HOUR
  /** Slots of breather between the end of a round and its reset. */
  const INTERMISSION_SLOTS: U64 := 35
  /** The FUEL supply cap: 5 million FUEL. */
  const MAX_SUPPLY: U64 := ONE_FUEL * 5_000_000

  /** The top-miner marker that means "reward split between all miners". */
  const SPLIT_ADDRESS: Pubkey := Pubkey("SpLiT11111111111111111111111111111111111112")

  const DENOMINATOR_BPS: U64 := 10_000

  const SPRINT_PROTOCOL_FEE_BPS: U64 := 1000
  const SPRINT_TEAM_FEE_BPS: U64 := 300
  const SPRINT_TREASURY_FEE_BPS: U64 := 700
  const SPRINT_BUYBACK_FEE_BPS: U64 := SPRINT_TREASURY_FEE_BPS

  const FUEL_UP_BURN_BPS: U64 := 5500
  const FUEL_UP_POOL_BPS: U64 := 2800
  const FUEL_UP_REF_BPS: U64 := 1000
  const FUEL_UP_TEAM_BPS: U64 := 700

  const BOOST_TAX_BPS: U64 := 500
  const COLLECT_TAX_BPS: U64 := 1000

  /** Whale-tax thresholds, as a share of the total Garage TVL in bps. */
  const WHALE_TAX_THRESHOLD_BPS: seq<U64> := [100, 200, 300, 400, 500, 600, 700, 800, 900, 1000]
  /** Whale-tax rate of each tier, in bps. */
  const WHALE_TAX_RATE_BPS: seq<U64> := [500, 1000, 1500, 2000, 2500, 3000, 3500, 4000, 4500, 5000]

  const WHALE_TAX_TEAM_BPS: U64 := 3000
  const WHALE_TAX_POOL_BPS: U64 := 7000

  const WALLET_HAIRCUT_BPS: U64 := 2000
  const HAIRCUT_BURN_BPS: U64 := 5000
  const HAIRCUT_TEAM_BPS: U64 := 5000

  /** Garage yield: 1.5 % of the deposit per whole day. */
  const DAILY_RATE_BPS: U64 := 150
  /** Garage cap: 365 % of the deposit. */
  const MAX_PAYOUT_MULT: U64 := 365
  /** Smallest FuelUp: 10 FUEL. */
  const MIN_DEPOSIT: U64 := ONE_FUEL * 10

  /**
   * `amount.checked_mul(bps).and_then(|v| v.checked_div(DENOMINATOR_BPS))`:
   * the floor of `bps` basis points of `amount`, or `None` when the product
   * leaves `u64`.
   */
  function BpsOf(amount: U64, bps: U64): (r: Option<U64>)
    ensures r.Some? <==> amount * bps <= U64_MAX
    ensures r.Some? ==> r.value * DENOMINATOR_BPS <= amount * bps < (r.value + 1) * DENOMINATOR_BPS
  {
    match CheckedMul(amount, bps)
    case None => None
    case Some(p) => CheckedDiv(p, DENOMINATOR_BPS)
  }

  /** A fee of at most 100 % never exceeds the amount it is taken from. */
  lemma BpsOfBounded(amount: U64, bps: U64)
    requires bps <= DENOMINATOR_BPS && amount * bps <= U64_MAX
    ensures BpsOf(amount, bps).Some? && BpsOf(amount, bps).value <= amount
  {
    var v := BpsOf(amount, bps).value;
    if v > amount {
      MulMonotone(amount + 1, v, DENOMINATOR_BPS);
      MulMonotone(bps, DENOMINATOR_BPS, amount);
      assert false;
    }
  }

  /** Percentages up to 100 % of any realistic amount (below `u64::MAX / 10000`) never overflow. */
  lemma BpsOfDefined(amount: U64, bps: U64)
    requires bps <= DENOMINATOR_BPS && amount <= U64_MAX / DENOMINATOR_BPS
    ensures BpsOf(amount, bps).Some? && BpsOf(amount, bps).value <= amount
  {
    MulMonotone(bps, DENOMINATOR_BPS, amount);
    BpsOfBounded(amount, bps);
  }

  /** Tier `i` has threshold `100 * (i + 1)` bps and rate `500 * (i + 1)` bps. */
  lemma TierTable(i: nat)
    requires i < |WHALE_TAX_THRESHOLD_BPS|
    ensures |WHALE_TAX_RATE_BPS| == |WHALE_TAX_THRESHOLD_BPS| == 10
    ensures WHALE_TAX_THRESHOLD_BPS[i] == 100 * (i + 1)
    ensures WHALE_TAX_RATE_BPS[i] == 500 * (i + 1)
  {
    if i == 0 {
    } else if i == 1 {
    } else if i == 2 {
    } else if i == 3 {
    } else if i == 4 {
    } else if i == 5 {
    } else if i == 6 {
    } else if i == 7 {
    } else if i == 8 {
    } else {
      assert i == 9;
    }
  }

  /**
   * The user's share of the TVL in bps:
   * `user_balance.saturating_mul(DENOMINATOR_BPS).checked_div(total_tvl).unwrap_or(0)`.
   * The product saturates, so for balances above `u64::MAX / 10000` the share is
   * computed from `u64::MAX` rather than from the true product.
   */
  function WhaleShareBps(userBalance: U64, totalTvl: U64): (share: U64)
    ensures totalTvl == 0 ==> share == 0
    ensures totalTvl > 0 ==> share == SaturatingMul(userBalance, DENOMINATOR_BPS) / totalTvl
    ensures totalTvl > 0 ==>
              share * totalTvl <= SaturatingMul(userBalance, DENOMINATOR_BPS) < (share + 1) * totalTvl
    ensures totalTvl > 0 && userBalance * DENOMINATOR_BPS <= U64_MAX ==>
              share * totalTvl <= userBalance * DENOMINATOR_BPS < (share + 1) * totalTvl
  {
    match CheckedDiv(SaturatingMul(userBalance, DENOMINATOR_BPS), totalTvl)
    case None => 0
    case Some(q) => q
  }

  /**
   * The reverse `for` search over the first `n` tiers: the rate of the highest
   * tier below `n` whose threshold `share` meets, or 0 when none is met.
   */
  function TierSearch(share: U64, n: nat): (rate: U64)
    requires n <= |WHALE_TAX_THRESHOLD_BPS|
    ensures rate == 500 * Min(share / 100, n)
    decreases n
  {
    if n == 0 then 0
    else
      TierTable(n - 1);
      if share >= WHALE_TAX_THRESHOLD_BPS[n - 1] then WHALE_TAX_RATE_BPS[n - 1]
      else TierSearch(share, n - 1)
  }

  /**
   * `calculate_whale_tax_bps`: no tax on an empty TVL; otherwise 5 % per whole
   * percent of TVL the user holds, up to 50 % at 10 % of TVL.
   */
  function CalculateWhaleTaxBps(userBalance: U64, totalTvl: U64): (rate: U64)
    ensures totalTvl == 0 ==> rate == 0
    ensures totalTvl > 0 ==> rate == 500 * Min(WhaleShareBps(userBalance, totalTvl) / 100, 10)
    ensures rate <= 5000 && rate % 500 == 0
  {
    if totalTvl == 0 then 0
    else TierSearch(WhaleShareBps(userBalance, totalTvl), |WHALE_TAX_THRESHOLD_BPS|)
  }

  /**
   * The result is exactly the rate of the highest tier whose threshold the
   * share meets, and 0 exactly when the share is below the first threshold.
   */
  lemma WhaleTaxIsHighestMetTier(userBalance: U64, totalTvl: U64, i: nat)
    requires totalTvl > 0 && i < |WHALE_TAX_THRESHOLD_BPS|
    ensures var share := WhaleShareBps(userBalance, totalTvl);
      && (CalculateWhaleTaxBps(userBalance, totalTvl) == 0 <==> share < WHALE_TAX_THRESHOLD_BPS[0])
      && (CalculateWhaleTaxBps(userBalance, totalTvl) == WHALE_TAX_RATE_BPS[i] <==>
            WHALE_TAX_THRESHOLD_BPS[i] <= share
            && (i + 1 == |WHALE_TAX_THRESHOLD_BPS| || share < WHALE_TAX_THRESHOLD_BPS[i + 1]))
  {
    TierTable(0);
    TierTable(i);
    if i + 1 < |WHALE_TAX_THRESHOLD_BPS| {
      TierTable(i + 1);
    }
  }

  /** For a fixed TVL, a larger balance never pays a lower whale rate. */
  lemma WhaleTaxMonotone(smaller: U64, larger: U64, totalTvl: U64)
    requires smaller <= larger
    ensures CalculateWhaleTaxBps(smaller, totalTvl) <= CalculateWhaleTaxBps(larger, totalTvl)
  {
    if totalTvl > 0 {
      SaturatingMulMonotone(smaller, larger, DENOMINATOR_BPS);
      DivMonotone(SaturatingMul(smaller, DENOMINATOR_BPS), SaturatingMul(larger, DENOMINATOR_BPS), totalTvl);
      DivMonotone(WhaleShareBps(smaller, totalTvl), WhaleShareBps(larger, totalTvl), 100);
    }
  }

  /**
   * A balance at least as large as the TVL pays the top rate, provided the
   * TVL is at most `u64::MAX / 1000` (so the saturated share still reaches 10 %).
   */
  lemma WhaleTaxFullOwnership(userBalance: U64, totalTvl: U64)
    requires 0 < totalTvl <= userBalance && totalTvl * 1000 <= U64_MAX
    ensures CalculateWhaleTaxBps(userBalance, totalTvl) == 5000
  {
    var p := SaturatingMul(userBalance, DENOMINATOR_BPS);
    assert p >= totalTvl * 1000 by {
      if userBalance * DENOMINATOR_BPS <= U64_MAX {
        MulMonotone(totalTvl, userBalance, DENOMINATOR_BPS);
      }
    }
    var share := WhaleShareBps(userBalance, totalTvl);
    if share < 1000 {
      MulMonotone(share + 1, 1000, totalTvl);
      assert false;
    }
  }

  /**
   * The saturating product under-reports large holders: 200 000 FUEL out of a
   * 2 000 000 FUEL TVL is a 10 % share, but the computed share is 92 bps and
   * no whale tax applies.
   */
  lemma WhaleTaxSaturatedShare()
    ensures WhaleShareBps(200_000 * ONE_FUEL, 2_000_000 * ONE_FUEL) == 92
    ensures CalculateWhaleTaxBps(200_000 * ONE_FUEL, 2_000_000 * ONE_FUEL) == 0
    ensures CalculateWhaleTaxBps(10_000 * ONE_FUEL, 100_000 * ONE_FUEL) == 5000
  {
  }

  /** The schedule on a TVL of 10^12 drops (10 FUEL), around the first tier boundaries. */
  lemma WhaleTaxScheduleLowTiers()
    ensures CalculateWhaleTaxBps(5_000_000_000, 1_000_000_000_000) == 0
    ensures CalculateWhaleTaxBps(9_999_999_999, 1_000_000_000_000) == 0
    ensures CalculateWhaleTaxBps(10_000_000_000, 1_000_000_000_000) == 500
    ensures CalculateWhaleTaxBps(15_000_000_000, 1_000_000_000_000) == 500
    ensures CalculateWhaleTaxBps(20_000_000_000, 1_000_000_000_000) == 1000
  {
    assert WhaleShareBps(9_999_999_999, 1_000_000_000_000) == 99;
    assert WhaleShareBps(15_000_000_000, 1_000_000_000_000) == 150;
  }

  /** The schedule on a TVL of 10^12 drops (10 FUEL), from 2.5 % of TVL up to the 50 % cap. */
  lemma WhaleTaxScheduleHighTiers()
    ensures CalculateWhaleTaxBps(25_000_000_000, 1_000_000_000_000) == 1000
    ensures CalculateWhaleTaxBps(30_000_000_000, 1_000_000_000_000) == 1500
    ensures CalculateWhaleTaxBps(100_000_000_000, 1_000_000_000_000) == 5000
    ensures CalculateWhaleTaxBps(150_000_000_000, 1_000_000_000_000) == 5000
    ensures CalculateWhaleTaxBps(500_000_000_000, 1_000_000_000_000) == 5000
  {
    assert WhaleShareBps(25_000_000_000, 1_000_000_000_000) == 250;
  }

  /** An empty TVL or an empty balance pays nothing; owning the whole TVL pays the cap. */
  lemma WhaleTaxEdgeCases()
    ensures CalculateWhaleTaxBps(100, 0) == 0
    ensures CalculateWhaleTaxBps(0, 1000) == 0
    ensures CalculateWhaleTaxBps(0, 0) == 0
    ensures CalculateWhaleTaxBps(1_000_000_000_000, 1_000_000_000_000) == 5000
  {
  }

  /** Each fee family splits its whole: the FuelUp shares, the whale-tax split and the haircut split. */
  lemma SplitsSumToWhole()
    ensures FUEL_UP_BURN_BPS + FUEL_UP_POOL_BPS + FUEL_UP_REF_BPS + FUEL_UP_TEAM_BPS == DENOMINATOR_BPS
    ensures WHALE_TAX_TEAM_BPS + WHALE_TAX_POOL_BPS == DENOMINATOR_BPS
    ensures HAIRCUT_BURN_BPS + HAIRCUT_TEAM_BPS == DENOMINATOR_BPS
    ensures SPRINT_TEAM_FEE_BPS + SPRINT_TREASURY_FEE_BPS == SPRINT_PROTOCOL_FEE_BPS
  {
  }
}
