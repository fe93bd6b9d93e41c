/**
 * FuelUp: deposit FUEL into the caller's Garage. The whole amount is burned;
 * the deposit is credited with the amount less the team, referral and pool
 * fees (the burn share is not subtracted), the referral fee is credited to
 * the referrer's Garage when one is supplied, and the Treasury ledger grows.
 */
module FuelUpOp {
  import opened Primitives
  import opened Errors
  import opened Consts
  import opened GarageAccount
  import opened Accounts

  /**
   * The referrer Garage account supplied with the instruction: empty, a
   * Garage record, or the caller's own Garage account passed a second time
   * (the account is not checked against the caller's referrer on a later
   * deposit, so both names reach the same record).
   */
  datatype ReferrerAccount = NoAccount | Account(rec: GarageRec) | SameAsUser

  datatype FuelUpFees = FuelUpFees(teamFee: U64, refFee: U64, poolFee: U64, net: U64)

  datatype FuelUpEvent = FuelUpEvent(
    authority: Pubkey,
    grossAmount: U64,
    netAmount: U64,
    teamFee: U64,
    refFee: U64,
    poolFee: U64,
    referrer: Pubkey,
    newTotalDeposited: U64,
    newMaxPayout: U64,
    ts: I64)

  /** The committed state, the event, and the FUEL burned from the sender. */
  datatype FuelUpOutcome = FuelUpOutcome(
    garage: GarageRec,
    referrer: ReferrerAccount,
    treasury: TreasuryRec,
    event: FuelUpEvent,
    burned: U64)

  /**
   * The fees of a deposit of `amount`: 7 % team, 10 % referral and 28 % pool;
   * the net is what remains after these three only; `None` when a product
   * overflows.
   */
  function FeesOf(amount: U64): (r: Option<FuelUpFees>)
    ensures r.Some? <==> amount * FUEL_UP_POOL_BPS <= U64_MAX
    ensures r.Some? ==>
      var f := r.value;
      && BpsOf(amount, FUEL_UP_TEAM_BPS) == Some(f.teamFee)
      && BpsOf(amount, FUEL_UP_REF_BPS) == Some(f.refFee)
      && BpsOf(amount, FUEL_UP_POOL_BPS) == Some(f.poolFee)
      && f.net + f.teamFee + f.refFee + f.poolFee == amount
  {
    match BpsOf(amount, FUEL_UP_TEAM_BPS)
    case None => None
    case Some(teamFee) =>
      match BpsOf(amount, FUEL_UP_REF_BPS)
      case None => None
      case Some(refFee) =>
        match BpsOf(amount, FUEL_UP_POOL_BPS)
        case None => None
        case Some(poolFee) =>
          // neither the checked sum of the fees nor the checked net can fail:
          // together the fees are at most 45 % of `amount`
          Some(FuelUpFees(teamFee, refFee, poolFee, amount - (teamFee + refFee + poolFee)))
  }

  /**
   * The burn share is not one of the fees taken off the deposit: the whole
   * amount is burned, and the credited net is still at least the 55 % burn
   * share of it.
   */
  lemma NetIncludesBurnShare(amount: U64)
    requires FeesOf(amount).Some?
    ensures FeesOf(amount).value.net * DENOMINATOR_BPS >= amount * FUEL_UP_BURN_BPS
    ensures amount * FUEL_UP_BURN_BPS <= U64_MAX ==> FeesOf(amount).value.net >= BpsOf(amount, FUEL_UP_BURN_BPS).value
  {
  }

  /** 1000 FUEL pays 70 FUEL team, 100 FUEL referral and 280 FUEL pool fees and credits 550 FUEL. */
  lemma FeesExample()
    ensures FeesOf(1000 * ONE_FUEL) == Some(FuelUpFees(70 * ONE_FUEL, 100 * ONE_FUEL, 280 * ONE_FUEL, 550 * ONE_FUEL))
  {
  }

  /** The record a first deposit creates: zero totals and cap, both clocks at `now`. */
  function NewGarage(signer: Pubkey, referrerKey: Pubkey, now: I64): (g: GarageRec)
    ensures IsExhausted(g)
    ensures g.authority == signer && g.referrer == referrerKey && g.createdAt == now
  {
    GarageRec(signer, referrerKey, 0, 0, 0, now, now, 0, 0)
  }

  /**
   * The Garage a deposit goes to. An existing record must belong to the
   * signer. A first deposit needs a referrer Garage owned by the referrer,
   * creates a new record and counts one more direct referral for the referrer.
   */
  function OpenGarage(signer: Pubkey, referrerKey: Pubkey, user: Option<GarageRec>, referrer: ReferrerAccount, now: I64)
    : (r: Result<(GarageRec, ReferrerAccount)>)
    ensures user.Some? ==>
      r == if user.value.authority != signer then Err(InvalidAccountData) else Ok((user.value, referrer))
    ensures user.None? && !referrer.Account? ==> r == Err(Ore(ReferrerNoGarage))
    ensures user.None? && referrer.Account? ==>
      if referrer.rec.authority != referrerKey then r == Err(InvalidAccountData)
      else if referrer.rec.directReferrals == U32_MAX then r == Err(ArithmeticOverflow)
      else r == Ok((NewGarage(signer, referrerKey, now),
                    Account(referrer.rec.(directReferrals := referrer.rec.directReferrals + 1))))
  {
    if user.None? then
      // an empty referrer account, or the caller's own still empty account
      if !referrer.Account? then Err(Ore(ReferrerNoGarage))
      else if referrer.rec.authority != referrerKey then Err(InvalidAccountData)
      else
        var created := NewGarage(signer, referrerKey, now);
        var referrals :- Checked(CheckedAddU32(referrer.rec.directReferrals, 1));
        Ok((created, Account(referrer.rec.(directReferrals := referrals))))
    else if user.value.authority != signer then Err(InvalidAccountData)
    else Ok((user.value, referrer))
  }

  /** The referral credit to one Garage record: deposit and lifetime earnings grow by `fee`, and the cap follows. */
  predicate Credited(rec: GarageRec, fee: U64, rec': GarageRec) {
    && rec'.totalDeposited == rec.totalDeposited + fee
    && rec'.lifetimeRefEarnings == rec.lifetimeRefEarnings + fee
    && rec'.maxPayout == MaxPayoutFor(rec'.totalDeposited)
    && rec'.(totalDeposited := rec.totalDeposited, lifetimeRefEarnings := rec.lifetimeRefEarnings,
             maxPayout := rec.maxPayout) == rec
  }

  function Credit(rec: GarageRec, fee: U64): (r: Result<GarageRec>)
    ensures r.Err? ==> r.error == ArithmeticOverflow
    ensures r.Ok? <==> rec.totalDeposited + fee <= U64_MAX && rec.lifetimeRefEarnings + fee <= U64_MAX
    ensures r.Ok? ==> Credited(rec, fee, r.value)
  {
    var deposited :- Checked(CheckedAdd(rec.totalDeposited, fee));
    var earnings :- Checked(CheckedAdd(rec.lifetimeRefEarnings, fee));
    Ok(rec.(totalDeposited := deposited, lifetimeRefEarnings := earnings, maxPayout := MaxPayoutFor(deposited)))
  }

  /** The referral credit applied to whichever account was supplied; the caller's own account takes it on top of the deposit. */
  function CreditReferrer(g: GarageRec, referrer: ReferrerAccount, fee: U64): (r: Result<(GarageRec, ReferrerAccount)>)
    ensures r.Err? ==> r.error == ArithmeticOverflow
    ensures r.Ok? ==> match referrer
      case NoAccount => r.value == (g, NoAccount)
      case SameAsUser => r.value.1 == SameAsUser && Credited(g, fee, r.value.0)
      case Account(rec) => r.value.0 == g && r.value.1.Account? && Credited(rec, fee, r.value.1.rec)
    ensures r.Ok? <==> match referrer
      case NoAccount => true
      case SameAsUser => g.totalDeposited + fee <= U64_MAX && g.lifetimeRefEarnings + fee <= U64_MAX
      case Account(rec) => rec.totalDeposited + fee <= U64_MAX && rec.lifetimeRefEarnings + fee <= U64_MAX
  {
    match referrer
    case NoAccount => Ok((g, NoAccount))
    case SameAsUser =>
      var g' :- Credit(g, fee);
      Ok((g', SameAsUser))
    case Account(rec) =>
      var rec' :- Credit(rec, fee);
      Ok((g, Account(rec')))
  }

  /**
   * What a successful deposit into the existing record `g` does: the net is
   * added to the deposit, the clock restarts and the cap is recomputed, with
   * `total_claimed` unchanged; the referral credit goes to the supplied
   * account; the pool gains the pool fee and the TVL the net plus the
   * referral fee, whichever account took it; the whole amount is burned.
   */
  predicate Deposited(signer: Pubkey, amount: U64, g: GarageRec, referrer: ReferrerAccount, t: TreasuryRec, now: I64,
                      f: FuelUpFees, o: FuelUpOutcome) {
    var credit := if referrer.SameAsUser? then f.refFee else 0;
    && o.garage.totalDeposited == g.totalDeposited + f.net + credit
    && o.garage.lifetimeRefEarnings == g.lifetimeRefEarnings + credit
    && o.garage.lastActionAt == now
    && o.garage.maxPayout == MaxPayoutFor(o.garage.totalDeposited)
    && o.garage.(totalDeposited := g.totalDeposited, lastActionAt := g.lastActionAt, maxPayout := g.maxPayout,
                 lifetimeRefEarnings := g.lifetimeRefEarnings) == g
    && (referrer.SameAsUser? ==> o.referrer == SameAsUser)
    && (referrer.Account? ==> o.referrer.Account? && Credited(referrer.rec, f.refFee, o.referrer.rec))
    && (referrer.NoAccount? ==> o.referrer == NoAccount)
    && o.treasury.garagePool == t.garagePool + f.poolFee
    && o.treasury.totalGarageTvl == t.totalGarageTvl + f.net + f.refFee
    && o.treasury.(garagePool := t.garagePool, totalGarageTvl := t.totalGarageTvl) == t
    && o.event == FuelUpEvent(signer, amount, f.net, f.teamFee, f.refFee, f.poolFee, g.referrer,
                              o.garage.totalDeposited, o.garage.maxPayout, now)
    && o.burned == amount
  }

  /**
   * The checked sums of a deposit all fit in `u64`: the caller's new total,
   * the referral credit on whichever account takes it (on top of the new
   * total when that is the caller's own), the pool and the TVL.
   */
  predicate DepositFits(g: GarageRec, referrer: ReferrerAccount, t: TreasuryRec, f: FuelUpFees) {
    && g.totalDeposited + f.net <= U64_MAX
    && (referrer.SameAsUser? ==>
          g.totalDeposited + f.net + f.refFee <= U64_MAX && g.lifetimeRefEarnings + f.refFee <= U64_MAX)
    && (referrer.Account? ==>
          referrer.rec.totalDeposited + f.refFee <= U64_MAX && referrer.rec.lifetimeRefEarnings + f.refFee <= U64_MAX)
    && t.garagePool + f.poolFee <= U64_MAX
    && t.totalGarageTvl + f.net + f.refFee <= U64_MAX
  }

  /** The common tail of both paths: the exhaustion check, then the deposit proper. */
  function Deposit(signer: Pubkey, amount: U64, g: GarageRec, referrer: ReferrerAccount, t: TreasuryRec, now: I64,
                   f: FuelUpFees): (r: Result<FuelUpOutcome>)
    ensures IsExhausted(g) ==> r == Err(Ore(GarageExhausted))
    ensures r.Err? ==> r.error in {Ore(GarageExhausted), ArithmeticOverflow}
    ensures r.Ok? ==> !IsExhausted(g) && Deposited(signer, amount, g, referrer, t, now, f, r.value)
    ensures r.Ok? <==> !IsExhausted(g) && DepositFits(g, referrer, t, f)
  {
    if IsExhausted(g) then Err(Ore(GarageExhausted))
    else DepositNet(signer, amount, g, referrer, t, now, f)
  }

  /** The deposit of the net, the referral credit and the ledger update; it fails only when a checked sum overflows. */
  function DepositNet(signer: Pubkey, amount: U64, g: GarageRec, referrer: ReferrerAccount, t: TreasuryRec, now: I64,
                      f: FuelUpFees): (r: Result<FuelUpOutcome>)
    ensures r.Err? ==> r.error == ArithmeticOverflow
    ensures r.Ok? ==> Deposited(signer, amount, g, referrer, t, now, f, r.value)
    ensures r.Ok? <==> DepositFits(g, referrer, t, f)
  {
    var deposited :- Checked(CheckedAdd(g.totalDeposited, f.net));
    var g1 := g.(totalDeposited := deposited, lastActionAt := now, maxPayout := MaxPayoutFor(deposited));
    var credited :- CreditReferrer(g1, referrer, f.refFee);
    var pool :- Checked(CheckedAdd(t.garagePool, f.poolFee));
    var tvl :- Checked(CheckedAdd(t.totalGarageTvl, f.net));
    var tvl' :- Checked(CheckedAdd(tvl, f.refFee));
    var g2 := credited.0;
    Ok(FuelUpOutcome(g2, credited.1, t.(garagePool := pool, totalGarageTvl := tvl'),
                     FuelUpEvent(signer, amount, f.net, f.teamFee, f.refFee, f.poolFee, g2.referrer,
                                 g2.totalDeposited, g2.maxPayout, now),
                     amount))
  }

  /**
   * `process_fuel_up` over the signer and referrer keys, the amount, the
   * sender's token balance, the caller's Garage (`None` when the account is
   * empty), the supplied referrer Garage account, the Treasury and `now`.
   */
  function FuelUp(signer: Pubkey, referrerKey: Pubkey, amount: U64, senderBalance: U64, user: Option<GarageRec>,
                  referrer: ReferrerAccount, t: TreasuryRec, now: I64): (r: Result<FuelUpOutcome>)
    ensures referrerKey == signer ==> r == Err(Ore(InvalidReferrer))
    ensures referrerKey != signer && amount < MIN_DEPOSIT ==> r == Err(Ore(DepositBelowMinimum))
    ensures referrerKey != signer && amount >= MIN_DEPOSIT && senderBalance < amount ==> r == Err(InsufficientFunds)
    ensures r.Ok? ==>
      && referrerKey != signer && amount >= MIN_DEPOSIT && senderBalance >= amount
      && user.Some? && user.value.authority == signer && !IsExhausted(user.value)
      && FeesOf(amount).Some?
      && Deposited(signer, amount, user.value, referrer, t, now, FeesOf(amount).value, r.value)
    ensures r.Ok? <==>
      && referrerKey != signer && MIN_DEPOSIT <= amount <= senderBalance && FeesOf(amount).Some?
      && user.Some? && user.value.authority == signer && !IsExhausted(user.value)
      && DepositFits(user.value, referrer, t, FeesOf(amount).value)
  {
    if referrerKey == signer then Err(Ore(InvalidReferrer))
    else if amount < MIN_DEPOSIT then Err(Ore(DepositBelowMinimum))
    else if senderBalance < amount then Err(InsufficientFunds)
    else
      var f :- Checked(FeesOf(amount));
      var account :- OpenGarage(signer, referrerKey, user, referrer, now);
      Deposit(signer, amount, account.0, account.1, t, now, f)
  }

  /**
   * A first deposit never succeeds: past the earlier checks it fails with
   * `ReferrerNoGarage` without a referrer Garage, and otherwise, unless the
   * referrer's record is rejected or its referral count overflows, with
   * `GarageExhausted`, because the new record's cap and claim are both 0.
   */
  lemma FirstDepositAlwaysFails(signer: Pubkey, referrerKey: Pubkey, amount: U64, senderBalance: U64,
                                referrer: ReferrerAccount, t: TreasuryRec, now: I64)
    ensures FuelUp(signer, referrerKey, amount, senderBalance, None, referrer, t, now).Err?
    ensures referrerKey != signer && MIN_DEPOSIT <= amount <= senderBalance && FeesOf(amount).Some? ==>
      var r := FuelUp(signer, referrerKey, amount, senderBalance, None, referrer, t, now);
      && (!referrer.Account? ==> r == Err(Ore(ReferrerNoGarage)))
      && (referrer.Account? && referrer.rec.authority == referrerKey && referrer.rec.directReferrals < U32_MAX ==>
            r == Err(Ore(GarageExhausted)))
  {
    var o := OpenGarage(signer, referrerKey, None, referrer, now);
    if o.Ok? {
      assert IsExhausted(o.value.0);
    }
  }

  /**
   * FuelUp as evidently intended: the exhaustion check guards an existing
   * record only, so a new Garage, whose cap is still 0, takes its first net
   * deposit and the cap that follows it. On an existing Garage it is FuelUp.
   */
  function FuelUpIntended(signer: Pubkey, referrerKey: Pubkey, amount: U64, senderBalance: U64, user: Option<GarageRec>,
                          referrer: ReferrerAccount, t: TreasuryRec, now: I64): (r: Result<FuelUpOutcome>)
    ensures user.Some? ==> r == FuelUp(signer, referrerKey, amount, senderBalance, user, referrer, t, now)
    ensures user.None? && r.Ok? ==>
      && referrer.Account? && referrer.rec.authority == referrerKey
      && r.value.garage.authority == signer && r.value.garage.referrer == referrerKey
      && FeesOf(amount).Some? && r.value.garage.totalDeposited == FeesOf(amount).value.net
      && r.value.garage.totalClaimed == 0
  {
    if user.Some? then FuelUp(signer, referrerKey, amount, senderBalance, user, referrer, t, now)
    else if referrerKey == signer then Err(Ore(InvalidReferrer))
    else if amount < MIN_DEPOSIT then Err(Ore(DepositBelowMinimum))
    else if senderBalance < amount then Err(InsufficientFunds)
    else
      var f :- Checked(FeesOf(amount));
      var account :- OpenGarage(signer, referrerKey, None, referrer, now);
      DepositNet(signer, amount, account.0, account.1, t, now, f)
  }

  /**
   * Under the intended definition a valid first deposit succeeds: the new
   * Garage holds the net with its cap, is not exhausted and keeps the cap
   * invariant, and the referrer gains one referral and the referral credit.
   */
  lemma IntendedFirstDepositSucceeds(signer: Pubkey, referrerKey: Pubkey, amount: U64, senderBalance: U64,
                                     rec: GarageRec, t: TreasuryRec, now: I64)
    requires referrerKey != signer && MIN_DEPOSIT <= amount <= senderBalance && FeesOf(amount).Some?
    requires rec.authority == referrerKey && rec.directReferrals < U32_MAX
    requires var f := FeesOf(amount).value;
      && rec.totalDeposited + f.refFee <= U64_MAX && rec.lifetimeRefEarnings + f.refFee <= U64_MAX
      && t.garagePool + f.poolFee <= U64_MAX && t.totalGarageTvl + f.net + f.refFee <= U64_MAX
    ensures var r := FuelUpIntended(signer, referrerKey, amount, senderBalance, None, Account(rec), t, now);
      var f := FeesOf(amount).value;
      && r.Ok?
      && r.value.garage == NewGarage(signer, referrerKey, now).(totalDeposited := f.net, maxPayout := MaxPayoutFor(f.net))
      && !IsExhausted(r.value.garage) && CapConsistent(r.value.garage)
      && r.value.referrer.Account?
      && r.value.referrer.rec.directReferrals == rec.directReferrals + 1
      && r.value.referrer.rec.totalDeposited == rec.totalDeposited + f.refFee
      && r.value.referrer.rec.lifetimeRefEarnings == rec.lifetimeRefEarnings + f.refFee
      && r.value.burned == amount
  {
    var f := FeesOf(amount).value;
    NetIncludesBurnShare(amount);
    assert f.net > 0;
  }

  /** A deposit into an existing 100 FUEL Garage: 1000 FUEL credits 550 FUEL and lifts the cap to 2372.5 FUEL. */
  lemma FuelUpExample(signer: Pubkey, referrerKey: Pubkey, t: TreasuryRec, now: I64)
    requires signer != referrerKey
    requires t.garagePool <= 1_000_000 * ONE_FUEL && t.totalGarageTvl <= 1_000_000 * ONE_FUEL
    ensures var g := GarageRec(signer, referrerKey, 100 * ONE_FUEL, 0, 365 * ONE_FUEL, 1_700_000_000, 1_700_000_000, 0, 0);
      var r := FuelUp(signer, referrerKey, 1000 * ONE_FUEL, 1000 * ONE_FUEL, Some(g), NoAccount, t, now);
      && r.Ok?
      && r.value.garage.totalDeposited == 650 * ONE_FUEL
      && r.value.garage.maxPayout == 23725 * ONE_FUEL / 10
      && r.value.treasury.garagePool == t.garagePool + 280 * ONE_FUEL
  {
    FeesExample();
  }

  /** A deposit forfeits the yield accrued so far: nothing is available right after it, and nothing was claimed. */
  lemma FuelUpForfeitsAccrual(signer: Pubkey, referrerKey: Pubkey, amount: U64, senderBalance: U64, g: GarageRec,
                              referrer: ReferrerAccount, t: TreasuryRec, now: I64)
    requires FuelUp(signer, referrerKey, amount, senderBalance, Some(g), referrer, t, now).Ok?
    ensures var o := FuelUp(signer, referrerKey, amount, senderBalance, Some(g), referrer, t, now).value;
      && CalculateAvailable(o.garage, now) == 0
      && o.garage.totalClaimed == g.totalClaimed
      && o.garage.totalDeposited >= g.totalDeposited + FeesOf(amount).value.net
  {
    assert ElapsedDays(now, now) == 0;
  }

  /** A deposit keeps the caller's cap consistent, and the credited referrer's. */
  lemma FuelUpKeepsCapConsistent(signer: Pubkey, referrerKey: Pubkey, amount: U64, senderBalance: U64, g: GarageRec,
                                 referrer: ReferrerAccount, t: TreasuryRec, now: I64)
    requires CapConsistent(g) && (referrer.Account? ==> CapConsistent(referrer.rec))
    requires FuelUp(signer, referrerKey, amount, senderBalance, Some(g), referrer, t, now).Ok?
    ensures var o := FuelUp(signer, referrerKey, amount, senderBalance, Some(g), referrer, t, now).value;
      && CapConsistent(o.garage)
      && (o.referrer.Account? ==> CapConsistent(o.referrer.rec))
  {
    var o := FuelUp(signer, referrerKey, amount, senderBalance, Some(g), referrer, t, now).value;
    MaxPayoutMonotone(g.totalDeposited, o.garage.totalDeposited);
    if referrer.Account? {
      MaxPayoutMonotone(referrer.rec.totalDeposited, o.referrer.rec.totalDeposited);
    }
  }

  /**
   * The TVL grows by the net plus the referral fee even when no referrer
   * Garage was credited, so it can exceed the sum of the recorded deposits;
   * the pool grows by the pool fee, and the whole amount is burned.
   */
  lemma FuelUpLedger(signer: Pubkey, referrerKey: Pubkey, amount: U64, senderBalance: U64, g: GarageRec,
                     t: TreasuryRec, now: I64)
    requires FuelUp(signer, referrerKey, amount, senderBalance, Some(g), NoAccount, t, now).Ok?
    ensures var o := FuelUp(signer, referrerKey, amount, senderBalance, Some(g), NoAccount, t, now).value;
      var f := FeesOf(amount).value;
      && o.treasury.totalGarageTvl - t.totalGarageTvl == f.net + f.refFee
      && o.garage.totalDeposited - g.totalDeposited == f.net
      && f.refFee > 0
      && o.treasury.garagePool - t.garagePool == f.poolFee
      && o.burned == amount
  {
  }

  /**
   * The instruction over the live accounts: `garage` is `null` when the
   * caller's Garage account is empty, `referrerGarage` is `null` when the
   * referrer Garage account is empty and may be the very same object as
   * `garage`. All checks and sums come first; on success the Garage, the
   * credited referrer Garage and the Treasury are updated in place, on
   * failure nothing is written (the first-deposit record and referral count
   * are never committed, as that path always fails).
   */
  method ProcessFuelUp(signer: Pubkey, referrerKey: Pubkey, amount: U64, senderBalance: U64,
                       garage: Garage?, referrerGarage: Garage?, treasury: Treasury, now: I64)
    returns (r: Result<FuelUpEvent>)
    modifies garage, referrerGarage, treasury
    ensures var user := if garage == null then None else Some(old(garage.Rec()));
      var referrer := if referrerGarage == null then NoAccount
                      else if referrerGarage == garage then SameAsUser
                      else Account(old(referrerGarage.Rec()));
      var s := FuelUp(signer, referrerKey, amount, senderBalance, user, referrer, old(treasury.Rec()), now);
      if s.Ok? then
        && r == Ok(s.value.event) && garage != null
        && garage.Rec() == s.value.garage && treasury.Rec() == s.value.treasury
        && (referrer.Account? ==> s.value.referrer.Account? && referrerGarage.Rec() == s.value.referrer.rec)
      else
        && r == Err(s.error)
        && (garage != null ==> garage.Rec() == old(garage.Rec()))
        && (referrerGarage != null ==> referrerGarage.Rec() == old(referrerGarage.Rec()))
        && treasury.Rec() == old(treasury.Rec())
  {
    if referrerKey == signer {
      return Err(Ore(InvalidReferrer));
    }
    if amount < MIN_DEPOSIT {
      return Err(Ore(DepositBelowMinimum));
    }
    if senderBalance < amount {
      return Err(InsufficientFunds);
    }
    var f :- Checked(FeesOf(amount));

    if garage == null {
      if referrerGarage == null {
        return Err(Ore(ReferrerNoGarage));
      }
      if referrerGarage.authority != referrerKey {
        return Err(InvalidAccountData);
      }
      var created := NewGarage(signer, referrerKey, now);
      var referrals :- Checked(CheckedAddU32(referrerGarage.directReferrals, 1));
      if IsExhausted(created) {
        return Err(Ore(GarageExhausted));
      }
      assert false;
    }
    if garage.authority != signer {
      return Err(InvalidAccountData);
    }
    ghost var referrer := if referrerGarage == null then NoAccount
                          else if referrerGarage == garage then SameAsUser
                          else Account(referrerGarage.Rec());
    assert FuelUp(signer, referrerKey, amount, senderBalance, Some(garage.Rec()), referrer, treasury.Rec(), now)
        == Deposit(signer, amount, garage.Rec(), referrer, treasury.Rec(), now, f);
    r := DepositInPlace(signer, amount, f, garage, referrerGarage, treasury, now);
  }

  /**
   * The common tail over the live accounts: every sum is checked first, then
   * the Garage, the referrer Garage (possibly the same object) and the
   * Treasury are written.
   */
  method DepositInPlace(signer: Pubkey, amount: U64, f: FuelUpFees, garage: Garage, referrerGarage: Garage?,
                        treasury: Treasury, now: I64)
    returns (r: Result<FuelUpEvent>)
    modifies garage, referrerGarage, treasury
    ensures var referrer := if referrerGarage == null then NoAccount
                            else if referrerGarage == garage then SameAsUser
                            else Account(old(referrerGarage.Rec()));
      var s := Deposit(signer, amount, old(garage.Rec()), referrer, old(treasury.Rec()), now, f);
      if s.Ok? then
        && r == Ok(s.value.event)
        && garage.Rec() == s.value.garage && treasury.Rec() == s.value.treasury
        && (referrer.Account? ==> s.value.referrer.Account? && referrerGarage.Rec() == s.value.referrer.rec)
      else
        && r == Err(s.error)
        && garage.Rec() == old(garage.Rec())
        && (referrerGarage != null ==> referrerGarage.Rec() == old(referrerGarage.Rec()))
        && treasury.Rec() == old(treasury.Rec())
  {
    if garage.totalClaimed >= garage.maxPayout {
      return Err(Ore(GarageExhausted));
    }
    var deposited :- Checked(CheckedAdd(garage.totalDeposited, f.net));

    // the referral credit, read from the deposit just made when the referrer
    // account is the caller's own
    var refDeposited, refEarnings := 0, 0;
    if referrerGarage != null {
      var base := if referrerGarage == garage then deposited else referrerGarage.totalDeposited;
      refDeposited :- Checked(CheckedAdd(base, f.refFee));
      refEarnings :- Checked(CheckedAdd(referrerGarage.lifetimeRefEarnings, f.refFee));
    }
    var pool :- Checked(CheckedAdd(treasury.garagePool, f.poolFee));
    var tvl :- Checked(CheckedAdd(treasury.totalGarageTvl, f.net));
    tvl :- Checked(CheckedAdd(tvl, f.refFee));

    garage.RecordDeposit(deposited, now);
    if referrerGarage != null {
      CommitCredit(referrerGarage, refDeposited, refEarnings);
    }
    treasury.garagePool := pool;
    treasury.totalGarageTvl := tvl;

    r := Ok(FuelUpEvent(signer, amount, f.net, f.teamFee, f.refFee, f.poolFee, garage.referrer,
                        garage.totalDeposited, garage.maxPayout, now));
  }

  /** The referrer's Garage after the referral credit: the new total and earnings, and the cap recomputed. */
  method CommitCredit(referrer: Garage, deposited: U64, earnings: U64)
    modifies referrer
    ensures referrer.Rec() == old(referrer.Rec()).(totalDeposited := deposited, lifetimeRefEarnings := earnings,
                                                    maxPayout := MaxPayoutFor(deposited))
  {
    referrer.totalDeposited := deposited;
    referrer.lifetimeRefEarnings := earnings;
    referrer.UpdateMaxPayout();
  }
}
