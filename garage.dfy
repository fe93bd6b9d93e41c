/**
 * A user's Garage position: FUEL deposited into the yield faucet, the payout
 * claimed so far and the payout cap, with the daily accrual and the cap rule.
 */
module GarageAccount {
  import opened Primitives
  import opened Consts

  /** The fields of a Garage account (the alignment padding is always zero and left out). */
  datatype GarageRec = GarageRec(
    authority: Pubkey,
    referrer: Pubkey,
    totalDeposited: U64,
    totalClaimed: U64,
    maxPayout: U64,
    lastActionAt: I64,
    createdAt: I64,
    directReferrals: U32,
    lifetimeRefEarnings: U64)

  /** `is_exhausted`: the claims have reached the cap. */
  predicate IsExhausted(g: GarageRec)
    ensures IsExhausted(g) <==> SaturatingSub(g.maxPayout, g.totalClaimed) == 0
  {
    g.totalClaimed >= g.maxPayout
  }

  /**
   * Whole days between `last` and `now`: `now.saturating_sub(last) as u64 / ONE_DAY`.
   * A clock that went backwards casts a negative difference to a huge `u64`.
   */
  function ElapsedDays(last: I64, now: I64): (days: U64)
    ensures 0 <= now - last <= I64_MAX ==> days * ONE_DAY <= now - last < (days + 1) * ONE_DAY
    ensures now - last > I64_MAX ==> days == I64_MAX / ONE_DAY
    ensures now < last ==> days >= (I64_MAX + 1) / ONE_DAY
  {
    var seconds := AsU64(SaturatingSubI64(now, last));
    assert ONE_DAY == 86400;
    seconds / ONE_DAY as U64
  }

  /**
   * `total_deposited * days * DAILY_RATE_BPS / DENOMINATOR_BPS` in checked
   * arithmetic, where any overflow in the chain yields 0.
   */
  function AccruedYield(deposited: U64, days: U64): (accrued: U64)
    ensures deposited * days * DAILY_RATE_BPS <= U64_MAX ==>
              accrued * DENOMINATOR_BPS <= deposited * days * DAILY_RATE_BPS < (accrued + 1) * DENOMINATOR_BPS
    ensures deposited * days * DAILY_RATE_BPS > U64_MAX ==> accrued == 0
    ensures accrued <= U64_MAX / DENOMINATOR_BPS
  {
    match CheckedMul(deposited, days)
    case None =>
      assert deposited * days * DAILY_RATE_BPS >= deposited * days;
      0
    case Some(v) =>
      match BpsOf(v, DAILY_RATE_BPS)
      case None => 0
      case Some(a) => a
  }

  /**
   * `calculate_available(now)`: nothing once exhausted; otherwise the whole-day
   * accrual since the last action, capped at the payout that remains.
   */
  function CalculateAvailable(g: GarageRec, now: I64): (available: U64)
    ensures IsExhausted(g) ==> available == 0
    ensures available <= SaturatingSub(g.maxPayout, g.totalClaimed)
    ensures available <= AccruedYield(g.totalDeposited, ElapsedDays(g.lastActionAt, now))
    ensures available <= U64_MAX / DENOMINATOR_BPS
    ensures !IsExhausted(g) ==>
              (available == AccruedYield(g.totalDeposited, ElapsedDays(g.lastActionAt, now))
               || available == g.maxPayout - g.totalClaimed)
  {
    if IsExhausted(g) then 0
    else
      var accrued := AccruedYield(g.totalDeposited, ElapsedDays(g.lastActionAt, now));
      var remaining := SaturatingSub(g.maxPayout, g.totalClaimed);
      Min(accrued, remaining)
  }

  /**
   * The cap `update_max_payout` computes: 365 % of the deposit, rounded down,
   * or `u64::MAX` when the product overflows.
   */
  function MaxPayoutFor(deposited: U64): (cap: U64)
    ensures deposited * MAX_PAYOUT_MULT <= U64_MAX ==> cap * 100 <= deposited * MAX_PAYOUT_MULT < (cap + 1) * 100
    ensures deposited * MAX_PAYOUT_MULT > U64_MAX ==> cap == U64_MAX
    ensures cap >= deposited
  {
    // `checked_div(100)` cannot fail, so only the product can fall back to `u64::MAX`
    match CheckedMul(deposited, MAX_PAYOUT_MULT)
    case None => U64_MAX
    case Some(v) => v / 100
  }

  /**
   * The invariant every successful Garage operation keeps: the cap matches the
   * deposit and the claims never pass the cap.
   */
  predicate CapConsistent(g: GarageRec) {
    g.maxPayout == MaxPayoutFor(g.totalDeposited) && g.totalClaimed <= g.maxPayout
  }

  /** A larger deposit never gets a smaller cap. */
  lemma MaxPayoutMonotone(smaller: U64, larger: U64)
    requires smaller <= larger
    ensures MaxPayoutFor(smaller) <= MaxPayoutFor(larger)
  {
    if larger * MAX_PAYOUT_MULT <= U64_MAX {
      MulMonotone(smaller, larger, MAX_PAYOUT_MULT);
      DivMonotone(smaller * MAX_PAYOUT_MULT, larger * MAX_PAYOUT_MULT, 100);
    }
  }

  /** 100 FUEL caps at 365 FUEL; 150 FUEL caps at 547.5 FUEL. */
  lemma MaxPayoutExamples()
    ensures MaxPayoutFor(100 * ONE_FUEL) == 365 * ONE_FUEL
    ensures MaxPayoutFor(150 * ONE_FUEL) == 150 * ONE_FUEL * MAX_PAYOUT_MULT / 100
    ensures MaxPayoutFor(150 * ONE_FUEL) > MaxPayoutFor(100 * ONE_FUEL)
  {
  }

  /** Only whole days accrue: one second short of a day yields nothing, a full day yields one day's yield. */
  lemma WholeDaysOnly(g: GarageRec)
    requires g.lastActionAt + ONE_DAY <= I64_MAX
    ensures CalculateAvailable(g, g.lastActionAt) == 0
    ensures CalculateAvailable(g, g.lastActionAt + ONE_DAY - 1) == 0
    ensures ElapsedDays(g.lastActionAt, g.lastActionAt + ONE_DAY) == 1
  {
    assert ElapsedDays(g.lastActionAt, g.lastActionAt + ONE_DAY - 1) == 0;
    assert ElapsedDays(g.lastActionAt, g.lastActionAt) == 0;
  }

  /** Without overflow, more elapsed days never accrue less. */
  lemma {:induction false} AccruedYieldMonotone(deposited: U64, fewer: U64, more: U64)
    requires fewer <= more && deposited * more * DAILY_RATE_BPS <= U64_MAX
    ensures AccruedYield(deposited, fewer) <= AccruedYield(deposited, more)
  {
    MulMonotone(fewer, more, deposited);
    MulMonotone(deposited * fewer, deposited * more, DAILY_RATE_BPS);
    DivMonotone(deposited * fewer * DAILY_RATE_BPS, deposited * more * DAILY_RATE_BPS, DENOMINATOR_BPS);
  }

  /**
   * Overflow resets the accrual: 130 000 FUEL accrues 1 950 FUEL after one day,
   * but after ten days the product leaves `u64` and the accrual is 0.
   */
  lemma AccrualOverflowYieldsZero()
    ensures AccruedYield(130_000 * ONE_FUEL, 1) == 1_950 * ONE_FUEL
    ensures AccruedYield(130_000 * ONE_FUEL, 10) == 0
  {
  }

  /** A clock one second behind the last action reads as 213 503 982 334 601 elapsed days. */
  lemma BackwardsClockWraps()
    ensures ElapsedDays(1, 0) == 213_503_982_334_601
  {
  }

  /** A fresh 1000 FUEL position: 15 FUEL after one day, 105 FUEL after seven. */
  lemma DailyAccrualExample(key: Pubkey)
    ensures var g := GarageRec(key, key, 1000 * ONE_FUEL, 0, MaxPayoutFor(1000 * ONE_FUEL), 1_700_000_000, 1_700_000_000, 0, 0);
      && CalculateAvailable(g, 1_700_000_000 + ONE_DAY) == 15 * ONE_FUEL
      && CalculateAvailable(g, 1_700_000_000 + 7 * ONE_DAY) == 105 * ONE_FUEL
  {
  }

  /** With 10 FUEL of the 365 FUEL cap left, a year of accrual still yields 10 FUEL. */
  lemma CappedAtRemainingExample(key: Pubkey)
    ensures var g := GarageRec(key, key, 100 * ONE_FUEL, 355 * ONE_FUEL, 365 * ONE_FUEL, 1_700_000_000, 1_700_000_000, 0, 0);
      CalculateAvailable(g, 1_700_000_000 + ONE_DAY * 365) == 10 * ONE_FUEL
  {
  }

  /** Claiming up to the cap exhausts the position, after which nothing accrues. */
  lemma ExhaustionExample(key: Pubkey)
    ensures var g := GarageRec(key, key, 100 * ONE_FUEL, 0, 365 * ONE_FUEL, 1_700_000_000, 1_700_000_000, 0, 0);
      && !IsExhausted(g)
      && !IsExhausted(g.(totalClaimed := g.maxPayout / 2))
      && IsExhausted(g.(totalClaimed := g.maxPayout))
      && CalculateAvailable(g.(totalClaimed := g.maxPayout), g.lastActionAt + ONE_DAY * 30) == 0
  {
  }

  /** A Garage account, updated in place by the operations. */
  class Garage {
    var authority: Pubkey
    var referrer: Pubkey
    var totalDeposited: U64
    var totalClaimed: U64
    var maxPayout: U64
    var lastActionAt: I64
    var createdAt: I64
    var directReferrals: U32
    var lifetimeRefEarnings: U64

    /** The account's current field values. */
    function Rec(): GarageRec
      reads this
    {
      GarageRec(authority, referrer, totalDeposited, totalClaimed, maxPayout,
                lastActionAt, createdAt, directReferrals, lifetimeRefEarnings)
    }

    constructor (r: GarageRec)
      ensures Rec() == r
    {
      authority, referrer := r.authority, r.referrer;
      totalDeposited, totalClaimed, maxPayout := r.totalDeposited, r.totalClaimed, r.maxPayout;
      lastActionAt, createdAt := r.lastActionAt, r.createdAt;
      directReferrals, lifetimeRefEarnings := r.directReferrals, r.lifetimeRefEarnings;
    }

    /** `update_max_payout`: recomputes the cap from the deposit and changes no other field. */
    method UpdateMaxPayout()
      modifies this
      ensures Rec() == old(Rec()).(maxPayout := MaxPayoutFor(old(totalDeposited)))
      ensures maxPayout >= totalDeposited
    {
      var product := CheckedMul(totalDeposited, MAX_PAYOUT_MULT);
      maxPayout := if product.Some? then product.value / 100 else U64_MAX;
    }

    /** A deposit recorded: the new total, the clock restarted and the cap recomputed. */
    method RecordDeposit(deposited: U64, now: I64)
      modifies this
      ensures Rec() == old(Rec()).(totalDeposited := deposited, lastActionAt := now, maxPayout := MaxPayoutFor(deposited))
    {
      totalDeposited := deposited;
      lastActionAt := now;
      UpdateMaxPayout();
    }

    /** A withdrawal recorded: the new claimed total and the clock restarted; deposit and cap are kept. */
    method RecordClaim(claimed: U64, now: I64)
      modifies this
      ensures Rec() == old(Rec()).(totalClaimed := claimed, lastActionAt := now)
    {
      totalClaimed := claimed;
      lastActionAt := now;
    }
  }
}
