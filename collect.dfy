/**
 * Collect: withdraw the accrued Garage yield to the wallet, less a 10 % base
 * tax and a whale tax on what remains; the user is paid from the Treasury's
 * FUEL token account first and the shortfall is minted.
 */
module CollectOp {
  import opened Primitives
  import opened Errors
  import opened Consts
  import opened GarageAccount
  import opened Accounts

  datatype CollectEvent = CollectEvent(
    authority: Pubkey,
    grossAmount: U64,
    netAmount: U64,
    baseTax: U64,
    whaleTax: U64,
    whaleTaxTeam: U64,
    whaleTaxPool: U64,
    newTotalClaimed: U64,
    isExhausted: bool,
    ts: I64)

  /**
   * The token movements of a Collect: `transferred` from the Treasury token
   * account and `minted` to the user, and the whale-tax `teamMint` when that
   * mint happens at all.
   */
  datatype Payout = Payout(transferred: U64, minted: U64, teamMint: Option<U64>)

  datatype CollectOutcome = CollectOutcome(garage: GarageRec, treasury: TreasuryRec, event: CollectEvent, payout: Payout)

  /** The two taxes on `available` given a whale rate of at most 50 %, and the user's net. */
  datatype TaxSplit = TaxSplit(baseTax: U64, whaleTax: U64, whaleTaxTeam: U64, whaleTaxPool: U64, net: U64)

  /** A floor of at most 5000 bps of `amount` is at most half of it. */
  lemma AtMostHalf(amount: U64, rate: U64, part: U64)
    requires rate <= 5000 && part * DENOMINATOR_BPS <= amount * rate
    ensures part * 2 <= amount
  {
    MulMonotone(rate, 5000, amount);
    assert part * DENOMINATOR_BPS <= amount * 5000;
  }

  /**
   * The whale tax at `rate` bps on `afterBaseTax`, 30 % of it to the team and
   * the rest to the pool, and what the user keeps.
   */
  function WhaleSplit(afterBaseTax: U64, rate: U64): (r: Option<(U64, U64, U64, U64)>)
    requires rate <= 5000
    ensures r.Some? ==>
      var (whaleTax, team, pool, net) := r.value;
      && BpsOf(afterBaseTax, rate) == Some(whaleTax)
      && BpsOf(whaleTax, WHALE_TAX_TEAM_BPS) == Some(team)
      && team + pool == whaleTax
      && net + whaleTax == afterBaseTax
      && net >= afterBaseTax / 2
    ensures afterBaseTax <= U64_MAX / DENOMINATOR_BPS ==> r.Some?
  {
    match BpsOf(afterBaseTax, rate)
    case None => None
    case Some(whaleTax) =>
      BpsOfBounded(afterBaseTax, rate);
      AtMostHalf(afterBaseTax, rate, whaleTax);
      BpsOfDefined(whaleTax, WHALE_TAX_TEAM_BPS);
      var team := BpsOf(whaleTax, WHALE_TAX_TEAM_BPS).value;
      // both checked subtractions cannot fail: each part is at most its whole
      Some((whaleTax, team, whaleTax - team, afterBaseTax - whaleTax))
  }

  /**
   * The tax chain of `process_collect`: a 10 % base tax, then the whale split
   * of what is left.
   */
  function CollectTaxes(available: U64, rate: U64): (r: Option<TaxSplit>)
    requires rate <= 5000
    ensures r.Some? ==>
      var x := r.value;
      && BpsOf(available, COLLECT_TAX_BPS) == Some(x.baseTax)
      && WhaleSplit(available - x.baseTax, rate) == Some((x.whaleTax, x.whaleTaxTeam, x.whaleTaxPool, x.net))
      && x.net + x.baseTax + x.whaleTax == available
    ensures available <= U64_MAX / DENOMINATOR_BPS ==> r.Some?
  {
    match BpsOf(available, COLLECT_TAX_BPS)
    case None => None
    case Some(baseTax) =>
      BpsOfBounded(available, COLLECT_TAX_BPS);
      // the checked subtraction cannot fail: a 10 % tax never exceeds its base
      match WhaleSplit(available - baseTax, rate)
      case None => None
      case Some((whaleTax, team, pool, net)) => Some(TaxSplit(baseTax, whaleTax, team, pool, net))
  }

  /** A 100 FUEL whale tax splits 30 FUEL to the team and 70 FUEL to the pool; 100 FUEL of yield pays a 10 FUEL base tax. */
  lemma CollectTaxExamples()
    ensures BpsOf(100 * ONE_FUEL, WHALE_TAX_TEAM_BPS) == Some(30 * ONE_FUEL)
    ensures CollectTaxes(100 * ONE_FUEL, 0) == Some(TaxSplit(10 * ONE_FUEL, 0, 0, 0, 90 * ONE_FUEL))
  {
  }

  /** The tokens of the Treasury token account pay first; only the shortfall is minted. */
  function PayoutOf(treasuryTokens: U64, net: U64, whaleTaxTeam: U64): (p: Payout)
    ensures p.transferred == Min(treasuryTokens, net)
    ensures p.transferred + p.minted == net
    ensures p.minted > 0 <==> treasuryTokens < net
    ensures p.teamMint.Some? <==> whaleTaxTeam > 0
    ensures p.teamMint.Some? ==> p.teamMint.value == whaleTaxTeam
  {
    var teamMint := if whaleTaxTeam > 0 then Some(whaleTaxTeam) else None;
    if treasuryTokens >= net then Payout(net, 0, teamMint)
    else Payout(treasuryTokens, net - treasuryTokens, teamMint)
  }

  /**
   * What a successful Collect of `available` does: the whole of it counts as
   * claimed and the clock restarts; deposit and cap are untouched; the pool
   * gains the base tax and the pool share of the whale tax; the TVL is
   * untouched; the user's net is paid out.
   */
  predicate Collected(g: GarageRec, t: TreasuryRec, treasuryTokens: U64, now: I64, available: U64, o: CollectOutcome) {
    var e := o.event;
    var rate := CalculateWhaleTaxBps(g.totalDeposited, t.totalGarageTvl);
    && e.grossAmount == available
    && CollectTaxes(available, rate) == Some(TaxSplit(e.baseTax, e.whaleTax, e.whaleTaxTeam, e.whaleTaxPool, e.netAmount))
    && o.garage.totalClaimed == g.totalClaimed + available
    && o.garage == g.(totalClaimed := o.garage.totalClaimed, lastActionAt := now)
    && o.treasury.garagePool == t.garagePool + e.baseTax + e.whaleTaxPool
    && o.treasury == t.(garagePool := o.treasury.garagePool)
    && o.payout == PayoutOf(treasuryTokens, e.netAmount, e.whaleTaxTeam)
    && e.newTotalClaimed == o.garage.totalClaimed
    && e.isExhausted == IsExhausted(o.garage)
    && e.authority == g.authority && e.ts == now
  }

  /**
   * The checked arithmetic of a Collect of `available` fits: the taxes are
   * defined and the pool stays within `u64` after its two shares.
   */
  predicate WithdrawFits(g: GarageRec, t: TreasuryRec, available: U64) {
    var x := CollectTaxes(available, CalculateWhaleTaxBps(g.totalDeposited, t.totalGarageTvl));
    x.Some? && t.garagePool + x.value.baseTax + x.value.whaleTaxPool <= U64_MAX
  }

  /**
   * `process_collect` over the caller's Garage, the Treasury, the balance of
   * the Treasury's FUEL token account and the time `now`.
   */
  function Collect(g: GarageRec, t: TreasuryRec, treasuryTokens: U64, now: I64): (r: Result<CollectOutcome>)
    ensures IsExhausted(g) ==> r == Err(Ore(GarageExhausted))
    ensures !IsExhausted(g) && CalculateAvailable(g, now) == 0 ==> r == Err(Ore(NoRewardsAvailable))
    ensures r.Err? ==> r.error in {Ore(GarageExhausted), Ore(NoRewardsAvailable), ArithmeticOverflow}
    ensures r.Ok? ==> CalculateAvailable(g, now) > 0 && Collected(g, t, treasuryTokens, now, CalculateAvailable(g, now), r.value)
    ensures r.Ok? <==> !IsExhausted(g) && CalculateAvailable(g, now) > 0 && WithdrawFits(g, t, CalculateAvailable(g, now))
    ensures (!IsExhausted(g) && CalculateAvailable(g, now) > 0 && t.garagePool + CalculateAvailable(g, now) <= U64_MAX)
            ==> r.Ok?
  {
    if IsExhausted(g) then Err(Ore(GarageExhausted))
    else
      var available := CalculateAvailable(g, now);
      if available == 0 then Err(Ore(NoRewardsAvailable))
      else Withdraw(g, t, treasuryTokens, now, available)
  }

  /** The taxed withdrawal of `available` once both checks have passed. */
  function Withdraw(g: GarageRec, t: TreasuryRec, treasuryTokens: U64, now: I64, available: U64): (r: Result<CollectOutcome>)
    requires available <= SaturatingSub(g.maxPayout, g.totalClaimed)
    ensures r.Err? ==> r.error == ArithmeticOverflow
    ensures r.Ok? ==> Collected(g, t, treasuryTokens, now, available, r.value)
    ensures r.Ok? <==> WithdrawFits(g, t, available)
    ensures (available <= U64_MAX / DENOMINATOR_BPS && t.garagePool + available <= U64_MAX) ==> r.Ok?
  {
    var rate := CalculateWhaleTaxBps(g.totalDeposited, t.totalGarageTvl);
    var x :- Checked(CollectTaxes(available, rate));
    // the claim stays within the cap, and the pool fee within `available`
    var g' := g.(totalClaimed := g.totalClaimed + available, lastActionAt := now);
    var pool :- Checked(CheckedAdd(t.garagePool, x.baseTax + x.whaleTaxPool));
    Ok(CollectOutcome(
      g', t.(garagePool := pool),
      CollectEvent(g.authority, available, x.net, x.baseTax, x.whaleTax, x.whaleTaxTeam, x.whaleTaxPool,
                   g'.totalClaimed, IsExhausted(g'), now),
      PayoutOf(treasuryTokens, x.net, x.whaleTaxTeam)))
  }

  /**
   * Once the taxes and the pool sum are defined, the withdrawal yields
   * exactly the outcome the in-place tail builds; a step of that proof.
   */
  lemma WithdrawSucceeds(g: GarageRec, t: TreasuryRec, treasuryTokens: U64, now: I64, available: U64, x: TaxSplit, pool: U64)
    requires available <= SaturatingSub(g.maxPayout, g.totalClaimed)
    requires CollectTaxes(available, CalculateWhaleTaxBps(g.totalDeposited, t.totalGarageTvl)) == Some(x)
    requires CheckedAdd(t.garagePool, x.baseTax + x.whaleTaxPool) == Some(pool)
    ensures var g' := g.(totalClaimed := g.totalClaimed + available, lastActionAt := now);
      Withdraw(g, t, treasuryTokens, now, available) == Ok(CollectOutcome(
        g', t.(garagePool := pool),
        CollectEvent(g.authority, available, x.net, x.baseTax, x.whaleTax, x.whaleTaxTeam, x.whaleTaxPool,
                     g'.totalClaimed, IsExhausted(g'), now),
        PayoutOf(treasuryTokens, x.net, x.whaleTaxTeam)))
  {
  }

  /**
   * A 1000 FUEL position holding 0.1 % of a 1 000 000 FUEL TVL collects its
   * 15 FUEL day of yield: 1.5 FUEL base tax, no whale tax, 13.5 FUEL paid
   * from the Treasury's tokens.
   */
  lemma CollectExample(key: Pubkey, t: TreasuryRec, treasuryTokens: U64)
    requires t.totalGarageTvl == 1_000_000 * ONE_FUEL && t.garagePool <= 1_000_000 * ONE_FUEL
    requires treasuryTokens >= 14 * ONE_FUEL
    ensures var g := GarageRec(key, key, 1000 * ONE_FUEL, 0, MaxPayoutFor(1000 * ONE_FUEL), 1_700_000_000, 1_700_000_000, 0, 0);
      var r := Collect(g, t, treasuryTokens, 1_700_000_000 + ONE_DAY);
      && r.Ok?
      && r.value.event.baseTax == 150 * ONE_FUEL / 100
      && r.value.event.whaleTax == 0
      && r.value.event.netAmount == 1350 * ONE_FUEL / 100
      && r.value.payout == Payout(1350 * ONE_FUEL / 100, 0, None)
      && r.value.garage.totalClaimed == 15 * ONE_FUEL
  {
    var g := GarageRec(key, key, 1000 * ONE_FUEL, 0, MaxPayoutFor(1000 * ONE_FUEL), 1_700_000_000, 1_700_000_000, 0, 0);
    assert CalculateAvailable(g, 1_700_000_000 + ONE_DAY) == 15 * ONE_FUEL;
    assert WhaleShareBps(1000 * ONE_FUEL, 1_000_000 * ONE_FUEL) == 10;
  }

  /** Collect keeps the cap consistent: the deposit and cap are unchanged and the claim stays within the cap. */
  lemma CollectKeepsCapConsistent(g: GarageRec, t: TreasuryRec, treasuryTokens: U64, now: I64)
    requires CapConsistent(g) && Collect(g, t, treasuryTokens, now).Ok?
    ensures CapConsistent(Collect(g, t, treasuryTokens, now).value.garage)
  {
  }

  /** FUEL is conserved: net, base tax and whale tax make up the withdrawal, and the pool is never debited. */
  lemma CollectConservesFuel(g: GarageRec, t: TreasuryRec, treasuryTokens: U64, now: I64)
    requires Collect(g, t, treasuryTokens, now).Ok?
    ensures var o := Collect(g, t, treasuryTokens, now).value;
      && o.event.netAmount + o.event.baseTax + o.event.whaleTax == o.event.grossAmount
      && o.payout.transferred + o.payout.minted == o.event.netAmount
      && o.event.whaleTaxTeam + o.event.whaleTaxPool == o.event.whaleTax
      && o.treasury.garagePool >= t.garagePool
      && o.treasury.totalGarageTvl == t.totalGarageTvl
  {
  }

  /** The whale rate grows with the deposit: of two otherwise equal Garages, the larger deposit keeps no more of the same withdrawal. */
  lemma CollectLargerDepositKeepsLess(small: U64, large: U64, tvl: U64, available: U64)
    requires small <= large && available <= U64_MAX / DENOMINATOR_BPS
    ensures var rs, rl := CalculateWhaleTaxBps(small, tvl), CalculateWhaleTaxBps(large, tvl);
      CollectTaxes(available, rl).value.net <= CollectTaxes(available, rs).value.net
  {
    var rs, rl := CalculateWhaleTaxBps(small, tvl), CalculateWhaleTaxBps(large, tvl);
    WhaleTaxMonotone(small, large, tvl);
    var base := BpsOf(available, COLLECT_TAX_BPS).value;
    BpsOfBounded(available, COLLECT_TAX_BPS);
    var after := available - base;
    MulMonotone(rs, rl, after);
    DivMonotone(after * rs, after * rl, DENOMINATOR_BPS);
  }

  /**
   * The instruction over the live accounts: the Garage claim and clock and
   * the Treasury pool are updated in place, and the outcome names the token
   * movements; nothing changes on failure.
   */
  method ProcessCollect(garage: Garage, treasury: Treasury, treasuryTokens: U64, now: I64)
    returns (r: Result<CollectOutcome>)
    modifies garage, treasury
    ensures var s := Collect(old(garage.Rec()), old(treasury.Rec()), treasuryTokens, now);
      && r == s
      && (s.Ok? ==> garage.Rec() == s.value.garage && treasury.Rec() == s.value.treasury)
      && (s.Err? ==> garage.Rec() == old(garage.Rec()) && treasury.Rec() == old(treasury.Rec()))
  {
    if garage.totalClaimed >= garage.maxPayout {
      return Err(Ore(GarageExhausted));
    }
    var available := CalculateAvailable(garage.Rec(), now);
    if available == 0 {
      return Err(Ore(NoRewardsAvailable));
    }
    ghost var g0, t0 := garage.Rec(), treasury.Rec();
    assert Collect(g0, t0, treasuryTokens, now) == Withdraw(g0, t0, treasuryTokens, now, available);
    r := WithdrawInPlace(garage, treasury, treasuryTokens, now, available);
  }

  /** The taxes, the pool credit and the payout for the amount `available`, over the live accounts. */
  method WithdrawInPlace(garage: Garage, treasury: Treasury, treasuryTokens: U64, now: I64, available: U64)
    returns (r: Result<CollectOutcome>)
    requires available <= SaturatingSub(garage.maxPayout, garage.totalClaimed)
    modifies garage, treasury
    ensures var s := Withdraw(old(garage.Rec()), old(treasury.Rec()), treasuryTokens, now, available);
      && r == s
      && (s.Ok? ==> garage.Rec() == s.value.garage && treasury.Rec() == s.value.treasury)
      && (s.Err? ==> garage.Rec() == old(garage.Rec()) && treasury.Rec() == old(treasury.Rec()))
  {
    var g0, t0 := garage.Rec(), treasury.Rec();
    var rate := CalculateWhaleTaxBps(g0.totalDeposited, t0.totalGarageTvl);
    var x :- Checked(CollectTaxes(available, rate));
    var pool :- Checked(CheckedAdd(t0.garagePool, x.baseTax + x.whaleTaxPool));
    var g' := g0.(totalClaimed := g0.totalClaimed + available, lastActionAt := now);
    var o := CollectOutcome(
      g', t0.(garagePool := pool),
      CollectEvent(g0.authority, available, x.net, x.baseTax, x.whaleTax, x.whaleTaxTeam, x.whaleTaxPool,
                   g'.totalClaimed, IsExhausted(g'), now),
      PayoutOf(treasuryTokens, x.net, x.whaleTaxTeam));
    WithdrawSucceeds(g0, t0, treasuryTokens, now, available, x, pool);

    garage.RecordClaim(g'.totalClaimed, now);
    treasury.garagePool := pool;
    r := Ok(o);
  }
}
