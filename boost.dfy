/**
 * Boost: compound the accrued Garage yield back into the deposit, less a 5 %
 * tax that goes to the Garage pool.
 */
module BoostOp {
  import opened Primitives
  import opened Errors
  import opened Consts
  import opened GarageAccount
  import opened Accounts

  datatype BoostEvent = BoostEvent(
    authority: Pubkey,
    grossAmount: U64,
    netAmount: U64,
    tax: U64,
    newTotalDeposited: U64,
    newMaxPayout: U64,
    ts: I64)

  /** The committed state of a successful Boost and the event it logs. */
  datatype BoostOutcome = BoostOutcome(garage: GarageRec, treasury: TreasuryRec, event: BoostEvent)

  /**
   * What a successful Boost of `available` does: 5 % of it goes to the Garage
   * pool, the rest is added to the deposit, the whole of it counts as claimed,
   * the clock restarts at `now` and the cap is recomputed; nothing else changes.
   */
  predicate Compounded(g: GarageRec, t: TreasuryRec, now: I64, available: U64, o: BoostOutcome) {
    var e := o.event;
    && e.grossAmount == available
    && BpsOf(available, BOOST_TAX_BPS) == Some(e.tax)
    && e.tax + e.netAmount == available
    && o.garage.totalDeposited == g.totalDeposited + e.netAmount
    && o.garage.totalClaimed == g.totalClaimed + available
    && o.garage.lastActionAt == now
    && o.garage.maxPayout == MaxPayoutFor(o.garage.totalDeposited)
    && o.garage.(totalDeposited := g.totalDeposited, totalClaimed := g.totalClaimed,
                 lastActionAt := g.lastActionAt, maxPayout := g.maxPayout) == g
    && o.treasury.garagePool == t.garagePool + e.tax
    && o.treasury.totalGarageTvl == t.totalGarageTvl + e.netAmount
    && o.treasury.(garagePool := t.garagePool, totalGarageTvl := t.totalGarageTvl) == t
    && e.authority == g.authority && e.ts == now
    && e.newTotalDeposited == o.garage.totalDeposited
    && e.newMaxPayout == o.garage.maxPayout
  }

  /**
   * The checked arithmetic of a Boost of `available` fits: the 5 % tax is
   * defined, and the deposit, the pool and the TVL stay within `u64`.
   */
  predicate CompoundFits(g: GarageRec, t: TreasuryRec, available: U64) {
    && available * BOOST_TAX_BPS <= U64_MAX
    && var tax := available * BOOST_TAX_BPS / DENOMINATOR_BPS;
    && g.totalDeposited + (available - tax) <= U64_MAX
    && t.garagePool + tax <= U64_MAX
    && t.totalGarageTvl + (available - tax) <= U64_MAX
  }

  /**
   * `process_boost` as a state transition over the caller's Garage and the
   * Treasury at time `now`: the first failure in source order, or the new state.
   */
  function Boost(g: GarageRec, t: TreasuryRec, now: I64): (r: Result<BoostOutcome>)
    ensures IsExhausted(g) ==> r == Err(Ore(GarageExhausted))
    ensures !IsExhausted(g) && CalculateAvailable(g, now) == 0 ==> r == Err(Ore(NoRewardsAvailable))
    ensures r.Err? ==> r.error in {Ore(GarageExhausted), Ore(NoRewardsAvailable), ArithmeticOverflow}
    ensures r.Ok? ==> CalculateAvailable(g, now) > 0 && Compounded(g, t, now, CalculateAvailable(g, now), r.value)
    ensures r.Ok? <==> !IsExhausted(g) && CalculateAvailable(g, now) > 0 && CompoundFits(g, t, CalculateAvailable(g, now))
  {
    if IsExhausted(g) then Err(Ore(GarageExhausted))
    else
      var available := CalculateAvailable(g, now);
      if available == 0 then Err(Ore(NoRewardsAvailable))
      else Compound(g, t, now, available)
  }

  /** The taxed compound of `available` once both checks have passed. */
  function Compound(g: GarageRec, t: TreasuryRec, now: I64, available: U64): (r: Result<BoostOutcome>)
    requires available <= SaturatingSub(g.maxPayout, g.totalClaimed)
    ensures r.Err? ==> r.error == ArithmeticOverflow
    ensures r.Ok? ==> Compounded(g, t, now, available, r.value)
    ensures r.Ok? <==> CompoundFits(g, t, available)
    ensures (available <= U64_MAX / DENOMINATOR_BPS && g.totalDeposited + available <= U64_MAX
             && t.garagePool + available <= U64_MAX && t.totalGarageTvl + available <= U64_MAX) ==> r.Ok?
  {
    var tax :- Checked(BpsOf(available, BOOST_TAX_BPS));
    // the checked subtraction cannot fail: a 5 % tax never exceeds its base
    var net := available - tax;
    var deposited :- Checked(CheckedAdd(g.totalDeposited, net));
    // nor can the claim pass `u64::MAX`: it stays within the remaining payout
    var claimed := g.totalClaimed + available;
    var g' := g.(totalDeposited := deposited, totalClaimed := claimed, lastActionAt := now,
                 maxPayout := MaxPayoutFor(deposited));
    var pool :- Checked(CheckedAdd(t.garagePool, tax));
    var tvl :- Checked(CheckedAdd(t.totalGarageTvl, net));
    Ok(BoostOutcome(g', t.(garagePool := pool, totalGarageTvl := tvl),
                    BoostEvent(g.authority, available, net, tax, g'.totalDeposited, g'.maxPayout, now)))
  }

  /** Boost keeps the cap consistent: the claim grows by at most what remains and the cap only rises. */
  lemma BoostKeepsCapConsistent(g: GarageRec, t: TreasuryRec, now: I64)
    requires CapConsistent(g) && Boost(g, t, now).Ok?
    ensures CapConsistent(Boost(g, t, now).value.garage)
  {
    var o := Boost(g, t, now).value;
    MaxPayoutMonotone(g.totalDeposited, o.garage.totalDeposited);
  }

  /** Right after a Boost nothing more has accrued. */
  lemma BoostLeavesNothingAvailable(g: GarageRec, t: TreasuryRec, now: I64)
    requires Boost(g, t, now).Ok?
    ensures CalculateAvailable(Boost(g, t, now).value.garage, now) == 0
  {
    assert ElapsedDays(now, now) == 0;
  }

  /** The Garage pool and the TVL only grow, and the TVL grows by exactly the compounded amount. */
  lemma BoostLedgerGrowth(g: GarageRec, t: TreasuryRec, now: I64)
    requires Boost(g, t, now).Ok?
    ensures var o := Boost(g, t, now).value;
      && o.treasury.garagePool >= t.garagePool
      && o.treasury.totalGarageTvl - t.totalGarageTvl == o.garage.totalDeposited - g.totalDeposited
  {
  }

  /** A 1000 FUEL position boosted after one day compounds 14.25 FUEL of its 15 FUEL yield. */
  lemma BoostExample(key: Pubkey, t: TreasuryRec)
    requires t.garagePool <= 1_000_000 * ONE_FUEL && t.totalGarageTvl <= 1_000_000 * ONE_FUEL
    ensures var g := GarageRec(key, key, 1000 * ONE_FUEL, 0, MaxPayoutFor(1000 * ONE_FUEL), 1_700_000_000, 1_700_000_000, 0, 0);
      var r := Boost(g, t, 1_700_000_000 + ONE_DAY);
      && r.Ok?
      && r.value.event.tax == 75 * ONE_FUEL / 100
      && r.value.garage.totalDeposited == 1000 * ONE_FUEL + 1425 * ONE_FUEL / 100
      && r.value.garage.totalClaimed == 15 * ONE_FUEL
  {
    var g := GarageRec(key, key, 1000 * ONE_FUEL, 0, MaxPayoutFor(1000 * ONE_FUEL), 1_700_000_000, 1_700_000_000, 0, 0);
    assert CalculateAvailable(g, 1_700_000_000 + ONE_DAY) == 15 * ONE_FUEL;
  }

  /** On 100 FUEL of yield the tax is 5 FUEL and 95 FUEL is compounded. */
  lemma BoostTaxExample()
    ensures BpsOf(100 * ONE_FUEL, BOOST_TAX_BPS) == Some(5 * ONE_FUEL)
  {
  }

  /**
   * The instruction over the live accounts: the same checks in the same order,
   * then the Garage and Treasury fields are updated in place. On any failure
   * nothing is written, as the whole transaction aborts.
   */
  method ProcessBoost(garage: Garage, treasury: Treasury, now: I64) returns (r: Result<BoostEvent>)
    modifies garage, treasury
    ensures var s := Boost(old(garage.Rec()), old(treasury.Rec()), now);
      if s.Ok? then
        r == Ok(s.value.event) && garage.Rec() == s.value.garage && treasury.Rec() == s.value.treasury
      else
        r == Err(s.error) && garage.Rec() == old(garage.Rec()) && treasury.Rec() == old(treasury.Rec())
  {
    if garage.totalClaimed >= garage.maxPayout {
      return Err(Ore(GarageExhausted));
    }
    var available := CalculateAvailable(garage.Rec(), now);
    if available == 0 {
      return Err(Ore(NoRewardsAvailable));
    }
    // the checked tax cannot fail: an accrual is at most `u64::MAX / 10000`
    BpsOfDefined(available, BOOST_TAX_BPS);
    var tax := BpsOf(available, BOOST_TAX_BPS).value;
    var net := available - tax;
    var deposited :- Checked(CheckedAdd(garage.totalDeposited, net));
    var claimed := garage.totalClaimed + available;
    var pool :- Checked(CheckedAdd(treasury.garagePool, tax));
    var tvl :- Checked(CheckedAdd(treasury.totalGarageTvl, net));

    garage.totalDeposited := deposited;
    garage.totalClaimed := claimed;
    garage.lastActionAt := now;
    garage.UpdateMaxPayout();
    treasury.garagePool := pool;
    treasury.totalGarageTvl := tvl;

    r := Ok(BoostEvent(garage.authority, available, net, tax, garage.totalDeposited, garage.maxPayout, now));
  }
}
