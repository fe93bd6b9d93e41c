/**
 * Stash: move a miner's FUEL rewards into the miner's Garage as a deposit,
 * with no fee.
 */
module StashOp {
  import opened Primitives
  import opened Errors
  import opened Consts
  import opened GarageAccount
  import opened Accounts

  datatype StashEvent = StashEvent(
    authority: Pubkey,
    amount: U64,
    newTotalDeposited: U64,
    newMaxPayout: U64,
    ts: I64)

  datatype StashOutcome = StashOutcome(garage: GarageRec, miner: MinerRec, treasury: TreasuryRec, event: StashEvent)

  /**
   * What a successful Stash does: the miner's rewards are zeroed, the Treasury
   * reward totals drop by the matching parts (saturating), the whole amount is
   * deposited into the Garage, whose clock restarts and cap is recomputed, and
   * the TVL grows by that amount. Nothing else changes.
   */
  predicate Stashed(g: GarageRec, m: MinerRec, t: TreasuryRec, now: I64, o: StashOutcome) {
    var amount := m.rewardsOre + m.refinedOre;
    && o.event.amount == amount
    && o.event == StashEvent(m.authority, o.event.amount, o.garage.totalDeposited, o.garage.maxPayout, now)
    && o.miner == m.(rewardsOre := 0, refinedOre := 0, lastClaimOreAt := now)
    && o.garage.totalDeposited == g.totalDeposited + amount
    && o.garage.lastActionAt == now
    && o.garage.maxPayout == MaxPayoutFor(o.garage.totalDeposited)
    && o.garage.(totalDeposited := g.totalDeposited, lastActionAt := g.lastActionAt, maxPayout := g.maxPayout) == g
    && o.treasury.totalUnclaimed == SaturatingSub(t.totalUnclaimed, m.rewardsOre)
    && o.treasury.totalRefined == SaturatingSub(t.totalRefined, m.refinedOre)
    && o.treasury.totalGarageTvl == t.totalGarageTvl + amount
    && o.treasury.(totalUnclaimed := t.totalUnclaimed, totalRefined := t.totalRefined,
                   totalGarageTvl := t.totalGarageTvl) == t
  }

  /**
   * `process_stash` over the caller's Garage (`None` when the account is
   * empty), the (already updated) Miner reward fields and the Treasury.
   */
  function Stash(garage: Option<GarageRec>, m: MinerRec, t: TreasuryRec, now: I64): (r: Result<StashOutcome>)
    ensures garage.None? ==> r == Err(Ore(GarageRequired))
    ensures garage.Some? && IsExhausted(garage.value) ==> r == Err(Ore(GarageExhausted))
    ensures garage.Some? && !IsExhausted(garage.value) && m.rewardsOre + m.refinedOre == 0 ==>
              r == Err(Ore(NoRewardsAvailable))
    ensures r.Err? ==> r.error in {Ore(GarageRequired), Ore(GarageExhausted), Ore(NoRewardsAvailable), ArithmeticOverflow}
    ensures r.Ok? ==> garage.Some? && !IsExhausted(garage.value) && m.rewardsOre + m.refinedOre > 0
                      && Stashed(garage.value, m, t, now, r.value)
    ensures r.Ok? <==> garage.Some? && !IsExhausted(garage.value) && 0 < m.rewardsOre + m.refinedOre
                       && garage.value.totalDeposited + (m.rewardsOre + m.refinedOre) <= U64_MAX
                       && t.totalGarageTvl + (m.rewardsOre + m.refinedOre) <= U64_MAX
  {
    if garage.None? then Err(Ore(GarageRequired))
    else
      var g := garage.value;
      if IsExhausted(g) then Err(Ore(GarageExhausted))
      else
        var amount :- Checked(CheckedAdd(m.rewardsOre, m.refinedOre));
        if amount == 0 then Err(Ore(NoRewardsAvailable))
        else
          var m' := m.(rewardsOre := 0, refinedOre := 0, lastClaimOreAt := now);
          var unclaimed := SaturatingSub(t.totalUnclaimed, m.rewardsOre);
          var refined := SaturatingSub(t.totalRefined, m.refinedOre);
          var deposited :- Checked(CheckedAdd(g.totalDeposited, amount));
          var g' := g.(totalDeposited := deposited, lastActionAt := now, maxPayout := MaxPayoutFor(deposited));
          var tvl :- Checked(CheckedAdd(t.totalGarageTvl, amount));
          Ok(StashOutcome(g', m', t.(totalUnclaimed := unclaimed, totalRefined := refined, totalGarageTvl := tvl),
                          StashEvent(m.authority, amount, g'.totalDeposited, g'.maxPayout, now)))
  }

  /** Stash keeps the cap consistent: the deposit, and with it the cap, only rises. */
  lemma StashKeepsCapConsistent(g: GarageRec, m: MinerRec, t: TreasuryRec, now: I64)
    requires CapConsistent(g) && Stash(Some(g), m, t, now).Ok?
    ensures CapConsistent(Stash(Some(g), m, t, now).value.garage)
  {
    var o := Stash(Some(g), m, t, now).value;
    MaxPayoutMonotone(g.totalDeposited, o.garage.totalDeposited);
  }

  /** The full amount moves with no fee: the deposit and the TVL grow by exactly the miner's rewards, and the pool is untouched. */
  lemma StashIsFeeFree(g: GarageRec, m: MinerRec, t: TreasuryRec, now: I64)
    requires Stash(Some(g), m, t, now).Ok?
    ensures var o := Stash(Some(g), m, t, now).value;
      && o.garage.totalDeposited - g.totalDeposited == o.event.amount == m.rewardsOre + m.refinedOre
      && o.treasury.totalGarageTvl - t.totalGarageTvl == o.event.amount
      && o.treasury.garagePool == t.garagePool
      && o.garage.totalClaimed == g.totalClaimed
  {
  }

  /** Stashing 50 FUEL onto a 100 FUEL deposit gives 150 FUEL and a 547.5 FUEL cap. */
  lemma StashExample(key: Pubkey, t: TreasuryRec)
    requires t.totalGarageTvl <= 1000 * ONE_FUEL
    ensures var g := GarageRec(key, key, 100 * ONE_FUEL, 0, 365 * ONE_FUEL, 1_700_000_000, 1_700_000_000, 0, 0);
      var r := Stash(Some(g), MinerRec(key, 50 * ONE_FUEL, 0, 0), t, 1_700_000_000);
      && r.Ok?
      && r.value.garage.totalDeposited == 150 * ONE_FUEL
      && r.value.garage.maxPayout == 150 * ONE_FUEL * MAX_PAYOUT_MULT / 100
  {
  }

  /**
   * The instruction over the live accounts (`garage` is `null` when the
   * Garage account is empty): all three accounts are updated in place, or
   * nothing changes on failure.
   */
  method ProcessStash(garage: Garage?, miner: Miner, treasury: Treasury, now: I64) returns (r: Result<StashEvent>)
    modifies garage, miner, treasury
    ensures var s := Stash(if garage == null then None else Some(old(garage.Rec())), old(miner.Rec()), old(treasury.Rec()), now);
      if s.Ok? then
        && r == Ok(s.value.event) && garage != null
        && garage.Rec() == s.value.garage && miner.Rec() == s.value.miner && treasury.Rec() == s.value.treasury
      else
        && r == Err(s.error)
        && (garage != null ==> garage.Rec() == old(garage.Rec()))
        && miner.Rec() == old(miner.Rec()) && treasury.Rec() == old(treasury.Rec())
  {
    if garage == null {
      return Err(Ore(GarageRequired));
    }
    if garage.totalClaimed >= garage.maxPayout {
      return Err(Ore(GarageExhausted));
    }
    var rewardsOre, refinedOre := miner.rewardsOre, miner.refinedOre;
    var amount :- Checked(CheckedAdd(rewardsOre, refinedOre));
    if amount == 0 {
      return Err(Ore(NoRewardsAvailable));
    }
    var deposited :- Checked(CheckedAdd(garage.totalDeposited, amount));
    var tvl :- Checked(CheckedAdd(treasury.totalGarageTvl, amount));
    ghost var g0, m0, t0 := garage.Rec(), miner.Rec(), treasury.Rec();
    ghost var unclaimed, refined := SaturatingSub(t0.totalUnclaimed, rewardsOre), SaturatingSub(t0.totalRefined, refinedOre);
    ghost var g' := g0.(totalDeposited := deposited, lastActionAt := now, maxPayout := MaxPayoutFor(deposited));
    assert Stash(Some(g0), m0, t0, now) == Ok(StashOutcome(
      g', m0.(rewardsOre := 0, refinedOre := 0, lastClaimOreAt := now),
      t0.(totalUnclaimed := unclaimed, totalRefined := refined, totalGarageTvl := tvl),
      StashEvent(m0.authority, amount, deposited, MaxPayoutFor(deposited), now)));

    miner.rewardsOre := 0;
    miner.refinedOre := 0;
    miner.lastClaimOreAt := now;
    treasury.totalUnclaimed := SaturatingSub(treasury.totalUnclaimed, rewardsOre);
    treasury.totalRefined := SaturatingSub(treasury.totalRefined, refinedOre);
    garage.RecordDeposit(deposited, now);
    treasury.totalGarageTvl := tvl;

    r := Ok(StashEvent(miner.authority, amount, garage.totalDeposited, garage.maxPayout, now));
  }
}
