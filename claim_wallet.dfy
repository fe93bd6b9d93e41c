/**
 * ClaimWallet: take a miner's FUEL rewards to the wallet instead of the
 * Garage, less a 20 % haircut that is half burned (never minted) and half
 * minted to the team.
 */
module ClaimWalletOp {
  import opened Primitives
  import opened Errors
  import opened Consts
  import opened Accounts

  datatype ClaimWalletEvent = ClaimWalletEvent(
    authority: Pubkey,
    grossAmount: U64,
    netAmount: U64,
    burnAmount: U64,
    teamFee: U64,
    ts: I64)

  /**
   * The committed state, the event, and the FUEL minted: `userMint` to the
   * caller, `teamMint` to the team account when that mint happens at all.
   */
  datatype ClaimWalletOutcome = ClaimWalletOutcome(
    miner: MinerRec,
    treasury: TreasuryRec,
    event: ClaimWalletEvent,
    userMint: U64,
    teamMint: Option<U64>)

  /**
   * The haircut split of `gross`: 20 % is cut, half of the cut is burned and
   * the rest goes to the team; `None` when a product overflows.
   */
  function HaircutSplit(gross: U64): (r: Option<(U64, U64, U64)>)
    ensures r.Some? ==>
      var (net, burn, team) := r.value;
      && BpsOf(gross, WALLET_HAIRCUT_BPS) == Some(burn + team)
      && BpsOf(burn + team, HAIRCUT_BURN_BPS) == Some(burn)
      && net + burn + team == gross
      && burn <= team <= burn + 1
    ensures gross <= U64_MAX / WALLET_HAIRCUT_BPS ==> r.Some?
  {
    match BpsOf(gross, WALLET_HAIRCUT_BPS)
    case None => None
    case Some(haircut) =>
      BpsOfBounded(gross, WALLET_HAIRCUT_BPS);
      BpsOfDefined(haircut, HAIRCUT_BURN_BPS);
      var burn := BpsOf(haircut, HAIRCUT_BURN_BPS).value;
      // both checked subtractions cannot fail: each part is at most its whole
      Some((gross - haircut, burn, haircut - burn))
  }

  /** 100 FUEL splits into 80 FUEL to the wallet, 10 FUEL burned and 10 FUEL to the team. */
  lemma HaircutExample()
    ensures HaircutSplit(100 * ONE_FUEL) == Some((80 * ONE_FUEL, 10 * ONE_FUEL, 10 * ONE_FUEL))
  {
  }

  /**
   * `process_claim_wallet` over the (already updated) Miner reward fields and
   * the Treasury at time `now`. No Garage record is involved.
   */
  function ClaimWallet(m: MinerRec, t: TreasuryRec, now: I64): (r: Result<ClaimWalletOutcome>)
    ensures m.rewardsOre + m.refinedOre == 0 ==> r == Err(Ore(NoRewardsAvailable))
    ensures r.Err? ==> r.error in {Ore(NoRewardsAvailable), ArithmeticOverflow}
    ensures 0 < m.rewardsOre + m.refinedOre <= U64_MAX / WALLET_HAIRCUT_BPS ==> r.Ok?
    ensures r.Ok? ==>
      var o, e := r.value, r.value.event;
      && e.grossAmount == m.rewardsOre + m.refinedOre
      && HaircutSplit(e.grossAmount) == Some((e.netAmount, e.burnAmount, e.teamFee))
      && o.userMint == e.netAmount
      && o.teamMint == (if e.teamFee > 0 then Some(e.teamFee) else None)
      && o.miner == m.(rewardsOre := 0, refinedOre := 0, lastClaimOreAt := now)
      && o.treasury == t.(totalUnclaimed := SaturatingSub(t.totalUnclaimed, m.rewardsOre),
                          totalRefined := SaturatingSub(t.totalRefined, m.refinedOre))
      && e.authority == m.authority && e.ts == now
  {
    var gross :- Checked(CheckedAdd(m.rewardsOre, m.refinedOre));
    if gross == 0 then Err(Ore(NoRewardsAvailable))
    else
      var (net, burn, team) :- Checked(HaircutSplit(gross));
      Ok(ClaimWalletOutcome(
        m.(rewardsOre := 0, refinedOre := 0, lastClaimOreAt := now),
        t.(totalUnclaimed := SaturatingSub(t.totalUnclaimed, m.rewardsOre),
           totalRefined := SaturatingSub(t.totalRefined, m.refinedOre)),
        ClaimWalletEvent(m.authority, gross, net, burn, team, now),
        net,
        if team > 0 then Some(team) else None))
  }

  /** Everything minted is at most what the miner had earned, and the burned share is never minted. */
  lemma ClaimWalletMintsLessThanGross(m: MinerRec, t: TreasuryRec, now: I64)
    requires ClaimWallet(m, t, now).Ok?
    ensures var o := ClaimWallet(m, t, now).value;
      && o.userMint + (if o.teamMint.Some? then o.teamMint.value else 0) + o.event.burnAmount == o.event.grossAmount
      && o.userMint >= o.event.grossAmount - o.event.grossAmount / 5
  {
    var o := ClaimWallet(m, t, now).value;
    var gross := o.event.grossAmount;
    var haircut := o.event.burnAmount + o.event.teamFee;
    assert haircut * DENOMINATOR_BPS <= gross * WALLET_HAIRCUT_BPS;
    assert haircut <= gross / 5;
  }

  /**
   * The instruction over the live accounts: the Miner reward fields are
   * zeroed and the Treasury totals reduced, or nothing changes on failure.
   */
  method ProcessClaimWallet(miner: Miner, treasury: Treasury, now: I64) returns (r: Result<ClaimWalletOutcome>)
    modifies miner, treasury
    ensures var s := ClaimWallet(old(miner.Rec()), old(treasury.Rec()), now);
      if s.Ok? then
        r == s && miner.Rec() == s.value.miner && treasury.Rec() == s.value.treasury
      else
        r == s && miner.Rec() == old(miner.Rec()) && treasury.Rec() == old(treasury.Rec())
  {
    var rewardsOre, refinedOre := miner.rewardsOre, miner.refinedOre;
    var gross :- Checked(CheckedAdd(rewardsOre, refinedOre));
    if gross == 0 {
      return Err(Ore(NoRewardsAvailable));
    }
    var haircut :- Checked(BpsOf(gross, WALLET_HAIRCUT_BPS));
    BpsOfBounded(gross, WALLET_HAIRCUT_BPS);
    BpsOfDefined(haircut, HAIRCUT_BURN_BPS);
    var burn := BpsOf(haircut, HAIRCUT_BURN_BPS).value;
    var team := haircut - burn;
    var net := gross - haircut;

    miner.rewardsOre := 0;
    miner.refinedOre := 0;
    miner.lastClaimOreAt := now;
    treasury.totalUnclaimed := SaturatingSub(treasury.totalUnclaimed, rewardsOre);
    treasury.totalRefined := SaturatingSub(treasury.totalRefined, refinedOre);

    var teamMint := None;
    if team > 0 {
      teamMint := Some(team);
    }
    r := Ok(ClaimWalletOutcome(miner.Rec(), treasury.Rec(),
                               ClaimWalletEvent(miner.authority, gross, net, burn, team, now), net, teamMint));
  }
}
