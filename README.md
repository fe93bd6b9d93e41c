# Speedway Garage and round settlement, in Dafny

This project models the yield-faucet accounting of the Speedway Solana program
and the arithmetic of its round settlement, and proves properties of both.

A user's **Garage** holds FUEL deposited into the faucet. It accrues 1.5 % of
the deposit per whole day, up to a payout cap of 365 % of the deposit. Five
instructions act on it:

- **FuelUp** burns a deposit and credits it less the team, referral and pool
  fees. The referral fee goes to the referrer's Garage.
- **Boost** compounds the accrued yield into the deposit, less a 5 % tax.
- **Collect** withdraws the yield, less a 10 % base tax and a whale tax. The
  whale tax is 5 % for each whole percent of the total Garage TVL the user
  holds, up to 50 %.
- **Stash** moves a miner's FUEL rewards into the Garage with no fee.
- **ClaimWallet** pays the miner's rewards out less a 20 % haircut.

**Reset** settles a finished round of SOL deployed on 25 squares. It takes
protocol fees, then vaults the rest or records the winnings. It mints the
supply-capped top-miner and motherlode FUEL, and then moves the Board to the
next round.

## Layout

There is one module per source file:

- `Primitives`: the machine integers, with Rust's checked and saturating
  operations and the `as u64` cast.
- `Errors`: the error codes and the instruction `Result`.
- `Consts`: the constants, the basis-point helper and the whale-tax lookup.
- `GarageAccount`: the Garage record and class, the accrual and the cap.
- `Accounts`: the Treasury, Miner, Board and Round records and classes.
- One module per instruction: `FuelUpOp`, `BoostOp`, `CollectOp`, `StashOp`,
  `ClaimWalletOp` and `ResetOp`.

Each instruction is modelled twice:

- A pure function over records gives the first failure in source order, or
  the complete new state and the event.
- A `Process…` method works on the account objects in place. Its
  postcondition equates its writes and its result with that function's value,
  and on failure nothing is written, since a failing Solana transaction
  writes nothing.

Lemmas about the pure functions state what each instruction promises.

Where a comment and the code disagree, the model follows the code:

- The Garage doc comment says 1 % a day; the constant is 1.5 %.
- The haircut comment says a 75/25 split; the constants give 50/50.
- The whale-tax comment says a 10/90 team/pool split; the constants give 30/70.
- The Reset comments say 1 % team and 9 % buyback; the constants give 3 % and 7 %.
- The FuelUp comments disagree with each other and with the code on what a deposit is worth:
  - the instruction's doc comment (`program/src/fuel_up.rs:8-13`) and the deposit event (`api/src/event.rs:156-165`) say the fees are 2/5/3 % and that 90 % is credited;
  - the burn constant (`api/src/consts.rs:114`) says 55 % is burned;
  - the tests (`api/src/lib.rs:34-35`, `74-104`) say yields accrue on the full gross deposit.

  The code burns the full amount (`program/src/fuel_up.rs:196-202`). It credits the amount less the 7/10/28 % fees, which is 55 % (`program/src/fuel_up.rs:101-103`, `160-163`). The model follows the code: `FuelUpOp.FeesOf` and `FuelUpOp.DepositNet`. The comments give three different figures, so no one of them can be named as the intended behaviour. The gross-credit test only builds a Garage record by hand and never calls the instruction.

## Model

| member | source | states |
|---|---|---|
| Errors.Code | api/src/error.rs:5-39 | The `u32` discriminant of each error code; exactly the three generic codes lie below 100. |
| Errors.CodeInjective | api/src/error.rs:5-39 | Distinct error codes have distinct discriminants. |
| Errors.Checked | program/src/boost.rs:54-57 | `ok_or(ArithmeticOverflow)`: a missing value becomes that error, and a present one passes through. |
| Consts.BpsOf | program/src/boost.rs:54-57 | The repeated basis-point fee. It is defined exactly when `amount * bps` fits in `u64`, and is then the floor of `amount * bps / 10000`. |
| Consts.BpsOfBounded | program/src/boost.rs:59-62 | A fee of at most 100 % never exceeds its base, so the checked subtractions after each fee cannot fail. |
| Consts.BpsOfDefined | program/src/collect.rs:101-109 | A fee of at most 100 % on an amount below `u64::MAX / 10000` is defined and at most the amount. |
| Consts.TierTable | api/src/consts.rs:151-176 | Whale-tax tier `i` has threshold `100 (i+1)` bps and rate `500 (i+1)` bps, for ten tiers. |
| Consts.WhaleShareBps | api/src/consts.rs:250-255 | The user's share of the TVL in bps. It is 0 on an empty TVL; otherwise it is the floor of the saturated product over the TVL, and the floor of the true share when the product fits. |
| Consts.TierSearch | api/src/consts.rs:257-266 | The reverse search over the first `n` tiers returns `500 * min(share / 100, n)`. |
| Consts.CalculateWhaleTaxBps | api/src/consts.rs:244-267 | The rate is 0 on an empty TVL; otherwise 5 % per whole percent of share, capped at 50 %. It is always a multiple of 500. |
| Consts.WhaleTaxIsHighestMetTier | api/src/consts.rs:234-267 | The rate is tier `i`'s rate exactly when the share meets tier `i`'s threshold and not tier `i+1`'s. It is 0 exactly below the first threshold. |
| Consts.WhaleTaxMonotone | api/src/consts.rs:234-243 | For a fixed TVL, a larger balance never pays a lower rate. |
| Consts.WhaleTaxFullOwnership | api/src/consts.rs:491-493 | A balance of at least the whole TVL pays the 50 % cap (see Left out). |
| Consts.WhaleTaxSaturatedShare | api/src/consts.rs:252-255 | The saturating product under-reports large holders: a true 10 % share is computed as 92 bps and pays no whale tax. |
| Consts.WhaleTaxScheduleLowTiers | api/src/consts.rs:438-447 | The tested schedule from 0.5 % to 2 % of TVL. |
| Consts.WhaleTaxScheduleHighTiers | api/src/consts.rs:447-466 | The tested schedule from 2.5 % of TVL to the cap. |
| Consts.WhaleTaxEdgeCases | api/src/consts.rs:481-494 | An empty TVL or balance pays nothing; owning the whole TVL pays 50 %. |
| Consts.SplitsSumToWhole | api/src/consts.rs:498-542 | The FuelUp shares, the whale-tax split and the haircut split each make up 100 %. The sprint team and treasury fees make up the protocol fee. |
| GarageAccount.IsExhausted | api/src/state/garage.rs:52-54 | A Garage is exhausted exactly when nothing of its cap remains. |
| GarageAccount.ElapsedDays | api/src/state/garage.rs:64-65 | Whole days between the last action and now. A clock that went backwards wraps to a huge count. |
| GarageAccount.AccruedYield | api/src/state/garage.rs:67-74 | The floor of 1.5 % of the deposit per day when the chain fits in `u64`, and 0 when any step overflows. |
| GarageAccount.CalculateAvailable | api/src/state/garage.rs:58-79 | 0 when exhausted. Otherwise the accrual capped at the remaining payout: never more than either, and equal to one of them. |
| GarageAccount.MaxPayoutFor | api/src/state/garage.rs:83-89 | The cap is the floor of 365 % of the deposit, or `u64::MAX` on overflow. It is never below the deposit. |
| GarageAccount.MaxPayoutMonotone | api/src/state/garage.rs:81-89 | A larger deposit never gets a smaller cap. |
| GarageAccount.MaxPayoutExamples | api/src/lib.rs:169-198 | 100 FUEL caps at 365 FUEL, and raising it to 150 FUEL raises the cap. |
| GarageAccount.WholeDaysOnly | api/src/state/garage.rs:64-65 | One second short of a day accrues nothing; a full day counts as one day. |
| GarageAccount.AccruedYieldMonotone | api/src/state/garage.rs:67-74 | Without overflow, more days never accrue less. |
| GarageAccount.AccrualOverflowYieldsZero | api/src/state/garage.rs:69-74 | 130 000 FUEL accrues 1 950 FUEL after one day. After ten days the product overflows and the accrual is 0. |
| GarageAccount.BackwardsClockWraps | api/src/state/garage.rs:64-65 | A clock one second behind reads as about 2.1 × 10^14 days. |
| GarageAccount.DailyAccrualExample | api/src/lib.rs:222-251 | 1000 FUEL accrues 15 FUEL in a day and 105 FUEL in seven. |
| GarageAccount.CappedAtRemainingExample | api/src/lib.rs:450-472 | With 10 FUEL of the cap left, a year of accrual yields 10 FUEL. |
| GarageAccount.ExhaustionExample | api/src/lib.rs:380-411 | Claiming half the cap does not exhaust; claiming the cap does, after which nothing accrues. |
| GarageAccount.Garage.UpdateMaxPayout | api/src/state/garage.rs:83-89 | Only the cap changes, to the cap of the current deposit. |
| GarageAccount.Garage.RecordDeposit | program/src/fuel_up.rs:160-165 | Only the deposit, the clock and the cap change, and the cap follows the new deposit. |
| GarageAccount.Garage.RecordClaim | program/src/collect.rs:116-121 | Only the claimed total and the clock change; the deposit and the cap are kept. |
| BoostOp.Boost | program/src/boost.rs:42-93 | Exhausted fails with GarageExhausted, then nothing accrued fails with NoRewardsAvailable, and other failures are overflows. On success the Boost compounds the available yield: tax and net make it up, the tax goes to the pool, the net to the deposit and the TVL, and the whole counts as claimed. The clock restarts, the cap follows and nothing else changes. It succeeds exactly when the Garage is not exhausted, something is available, and the tax, deposit, pool and TVL sums fit. |
| BoostOp.Compound | program/src/boost.rs:53-93 | Once the checks pass, the taxed compound of `available` fails only by overflow. It succeeds exactly when the tax product and the three credited sums fit, and always when `available` is at most `u64::MAX / 10000` and each sum fits even untaxed. |
| BoostOp.BoostKeepsCapConsistent | program/src/boost.rs:64-81 | After a Boost the cap still matches the deposit and the claims stay within it. |
| BoostOp.BoostLeavesNothingAvailable | program/src/boost.rs:77-78 | Right after a Boost no yield is available. |
| BoostOp.BoostLedgerGrowth | program/src/boost.rs:83-93 | The pool never shrinks. The TVL grows by exactly what the deposit grows by. |
| BoostOp.BoostTaxExample | api/src/lib.rs:152-165 | 100 FUEL pays a 5 FUEL tax. |
| BoostOp.BoostExample | program/src/boost.rs:42-93 | Boosting a 1000 FUEL Garage after a day succeeds. It pays a 0.75 FUEL tax on the 15 FUEL accrued, and the deposit becomes 1014.25 FUEL. |
| BoostOp.ProcessBoost | program/src/boost.rs:42-109 | The in-place Boost: it returns the function's event and writes its new Garage and Treasury, or writes nothing and returns its error. |
| ClaimWalletOp.HaircutSplit | program/src/claim_wallet.rs:72-91 | The haircut is 20 % of the gross, and the burn is half of the haircut. The net, burn and team parts make up the gross, and team is burn or burn + 1. |
| ClaimWalletOp.HaircutExample | api/src/lib.rs:346-372 | 100 FUEL gives 80 to the wallet, 10 burned and 10 to the team. |
| ClaimWalletOp.ClaimWallet | program/src/claim_wallet.rs:61-157 | No rewards fails with NoRewardsAvailable, and other failures are overflows; rewards of at most `u64::MAX / 2000` always succeed. On success the user mint is the net and the team mint happens exactly when its fee is positive. The miner's rewards are zeroed and its claim time set, and the Treasury reward totals drop by the matching parts, saturating. |
| ClaimWalletOp.ClaimWalletMintsLessThanGross | program/src/claim_wallet.rs:119-142 | The two mints and the burned share make up the gross. The user keeps at least 80 %. |
| ClaimWalletOp.ProcessClaimWallet | program/src/claim_wallet.rs:61-142 | The in-place ClaimWallet: its result and its writes to the Miner and Treasury are the function's. |
| CollectOp.WhaleSplit | program/src/collect.rs:93-114 | The whale tax at the given rate and its 30 % team share. Team and pool make up the tax, tax and net make up the base, and the user keeps at least half. |
| CollectOp.CollectTaxes | program/src/collect.rs:82-114 | The 10 % base tax, then the whale split of the rest. Net, base tax and whale tax make up the withdrawal. The split is defined whenever the amount is at most `u64::MAX / 10000`. |
| CollectOp.CollectTaxExamples | api/src/lib.rs:283-294 | A 100 FUEL whale tax splits 30/70, and 100 FUEL of yield pays a 10 FUEL base tax. |
| CollectOp.CollectExample | program/src/collect.rs:71-133 | Collecting from a 1000 FUEL Garage after a day, at a 0.1 % share of the TVL, succeeds. It pays a 1.5 FUEL base tax and no whale tax, and transfers 13.5 FUEL. |
| CollectOp.PayoutOf | program/src/collect.rs:152-216 | The Treasury token account pays as much of the net as it holds, and the shortfall is minted. The team mint happens exactly when the team's whale share is positive. |
| CollectOp.Collect | program/src/collect.rs:71-80 | Exhausted fails with GarageExhausted, then nothing accrued fails with NoRewardsAvailable, and other failures are overflows. On success the whole available yield counts as claimed and the clock restarts. The deposit, cap and TVL are untouched, the pool gains the base tax and the whale pool share, the event reports exhaustion, and the payout is as above. It succeeds exactly when the Garage is not exhausted, something is available, and the taxes and the pool credit fit; a pool with room for the whole yield always suffices. |
| CollectOp.Withdraw | program/src/collect.rs:82-133 | Once the checks pass, the taxed withdrawal fails only by overflow. It succeeds exactly when the taxes are defined and the pool credit fits, and always when `available` is at most `u64::MAX / 10000` and the pool has room for all of it. |
| CollectOp.CollectKeepsCapConsistent | program/src/collect.rs:116-124 | After a Collect the claims stay within the unchanged cap. |
| CollectOp.CollectConservesFuel | program/src/collect.rs:111-133 | Net and both taxes make up the withdrawal, transfer and mint make up the net, and team and pool make up the whale tax. The pool never shrinks and the TVL is untouched. |
| CollectOp.CollectLargerDepositKeepsLess | program/src/collect.rs:93-99 | Of two positions on the same TVL, the larger deposit keeps no more of the same withdrawal. |
| CollectOp.ProcessCollect | program/src/collect.rs:71-236 | The in-place Collect: its result, Garage and Treasury are the function's, or nothing is written. |
| CollectOp.WithdrawInPlace | program/src/collect.rs:82-216 | The in-place tail of Collect after the checks, equal to the pure withdrawal. |
| FuelUpOp.FeesOf | program/src/fuel_up.rs:80-103 | The 7 % team, 10 % referral and 28 % pool fees, defined exactly when the pool product fits. The net is what these three leave. |
| FuelUpOp.NetIncludesBurnShare | program/src/fuel_up.rs:101-103 | The net credited is at least the 55 % burn share, because the burn share is never subtracted. |
| FuelUpOp.FeesExample | api/src/lib.rs:36-72 | 1000 FUEL pays 70/100/280 FUEL in fees and credits 550 FUEL. |
| FuelUpOp.NewGarage | program/src/fuel_up.rs:127-137 | The first-deposit record belongs to the signer and cites the referrer. Its totals and cap are zero, so it is exhausted from the start. |
| FuelUpOp.OpenGarage | program/src/fuel_up.rs:105-152 | An existing record must belong to the signer (InvalidAccountData). A first deposit needs a referrer Garage (ReferrerNoGarage) owned by the referrer (InvalidAccountData). It makes a new record, and one more referral for the referrer unless that count overflows. |
| FuelUpOp.Credit | program/src/fuel_up.rs:169-180 | The referral credit is defined exactly when both sums fit. The deposit and lifetime earnings grow by the fee and the cap follows. |
| FuelUpOp.CreditReferrer | program/src/fuel_up.rs:167-180 | The credit goes to the supplied referrer account, or on top of the caller's own record when the same account is passed twice. It succeeds exactly when the receiving record can take the fee in both its deposit and its lifetime earnings, and always when there is no referrer account. |
| FuelUpOp.Deposit | program/src/fuel_up.rs:154-193 | Exhausted fails with GarageExhausted, and other failures are overflows. On success the deposit gains the net, the clock restarts and the cap follows, and the referral credit goes to the supplied account. The pool gains the pool fee, the TVL gains net plus referral fee, and the whole amount is burned. It succeeds exactly when the Garage is not exhausted and the deposit, referral, pool and TVL sums fit. |
| FuelUpOp.DepositNet | program/src/fuel_up.rs:159-193 | The deposit after the exhaustion check. Its failures are overflows, and it succeeds exactly when the deposit, referral, pool and TVL sums fit. |
| FuelUpOp.FuelUp | program/src/fuel_up.rs:47-202 | Self-referral fails with InvalidReferrer, then a deposit below the minimum with DepositBelowMinimum, then a short balance with InsufficientFunds. It succeeds exactly when the referrer differs, the amount is at least the minimum and covered by the balance, the fees are defined, an unexhausted Garage of the signer exists, and the deposit sums fit. |
| FuelUpOp.FuelUpExample | program/src/fuel_up.rs:47-202 | Depositing 1000 FUEL into an existing 100 FUEL Garage succeeds: the deposit becomes 650 FUEL, the cap 2372.5 FUEL, and the pool gains 280 FUEL. |
| FuelUpOp.FuelUpIntended | program/src/fuel_up.rs:105-165 | The FuelUp with the exhaustion check applied to existing Garages only (see Findings). On an existing Garage it is FuelUp. A successful first deposit opens a record of the signer, citing a referrer Garage, holding the net and nothing claimed. |
| FuelUpOp.IntendedFirstDepositSucceeds | program/src/fuel_up.rs:105-193 | Under the corrected definition, a valid first deposit with a referrer Garage and sums that fit succeeds. The new Garage holds the net with a matching cap and is not exhausted. The referrer gains one referral and the referral fee. |
| FuelUpOp.FirstDepositAlwaysFails | program/src/fuel_up.rs:106-157 | A first deposit never succeeds. Past the earlier checks it fails with ReferrerNoGarage without a referrer Garage, and with GarageExhausted when the referrer's record is valid. |
| FuelUpOp.FuelUpForfeitsAccrual | program/src/fuel_up.rs:159-165 | After a deposit nothing is available, so the yield accrued before it is lost. The claims are unchanged. |
| FuelUpOp.FuelUpKeepsCapConsistent | program/src/fuel_up.rs:159-180 | A deposit keeps the caller's cap consistent, and the credited referrer's. |
| FuelUpOp.FuelUpLedger | program/src/fuel_up.rs:182-202 | Without a referrer account the TVL still grows by the referral fee, so it outgrows the recorded deposits. The pool gains the pool fee and the whole amount is burned. |
| FuelUpOp.ProcessFuelUp | program/src/fuel_up.rs:47-232 | The in-place FuelUp over possibly empty and possibly aliased accounts. Its result and its writes to the Garage, referrer Garage and Treasury are the function's, or nothing is written. |
| FuelUpOp.DepositInPlace | program/src/fuel_up.rs:154-193 | The in-place deposit tail, equal to the pure deposit, including when the referrer Garage is the caller's own. |
| FuelUpOp.CommitCredit | program/src/fuel_up.rs:169-180 | Only the referrer's deposit, earnings and cap change. |
| ResetOp.NextRound | program/src/reset.rs:42-62 | The opened round has the next id and the signer as rent payer. Its squares and slot hash are zero, no top miner is set, and it waits for its first deploy. |
| ResetOp.AdvanceBoard | program/src/reset.rs:121-124 | The Board moves to the next round, starting at the next slot with no end. It panics exactly when the slot is `u64::MAX`. |
| ResetOp.MintAmounts | program/src/reset.rs:235-240 | At most one FUEL and a fifth of a FUEL, never past the supply cap. Both in full when there is room, and nothing at the cap. |
| ResetOp.MintAmountsNearCap | program/src/reset.rs:235-240 | With half a FUEL left, the top miner takes it all. |
| ResetOp.Reset | program/src/reset.rs:20-126 | It panics when the end slot plus intermission overflows, and fails when called too early. A due call for another round fails with InvalidAccountData, and one at the last round id panics. A due reset without an rng value always succeeds, and one whose fees overflow fails with ArithmeticOverflow. Success implies the reset was due; it records the new slot hash, keeps the squares, and advances the Board. |
| ResetOp.Settle | program/src/reset.rs:128-147 | The protocol fees on the round's SOL, then the no-winner or winners path. A fee product that overflows fails with ArithmeticOverflow, then an out-of-range square panics. It succeeds exactly when the fees are defined, the square is in range, and the taken path's condition holds: the balance and Board for no winner, or the winners' fees, sanity check, pot and Board. Only the settlement fields of the round change. |
| ResetOp.NoWinner | program/src/reset.rs:146-195 | The vault and both fees make up the round's SOL. The Treasury balance gains the vault, the sends are the team fee and buyback plus vault, nothing is minted, and the Board advances. It succeeds exactly when the slot is below `u64::MAX` and the balance can take the vault. |
| ResetOp.Winners | program/src/reset.rs:198-257 | Winnings and both fees make up the other squares' SOL, the buyback is vaulted and credited to the balance, and the sanity check holds. The minted amounts come from the supply, the split marker is set when drawn, the motherlode passes from the Treasury to the round on a hit, and the pot gains the new fifth. It succeeds exactly when the winnings' fees are defined and fit in them, the balance can take the buyback, the sanity check holds, the pot can take the new fifth, and the slot is below `u64::MAX`. |
| ResetOp.ResetWithoutRngRefunds | program/src/reset.rs:91-126 | With no rng value the round's totals are zeroed, the Treasury is untouched, and nothing is sent or minted. |
| ResetOp.ResetWithoutWinnerVaults | program/src/reset.rs:146-195 | With nobody on the winning square, the vault is at least 90 % of the round's SOL and all of it leaves the round account. The balance gains the vault, the motherlode is untouched and nothing is minted. |
| ResetOp.ResetWinnersSplit | program/src/reset.rs:198-223 | With winners, winnings and both fees make up the other squares' SOL, and the buyback is vaulted and credited. |
| ResetOp.ResetRespectsSupplyCap | program/src/reset.rs:235-257 | A reset never mints past the maximum supply. |
| ResetOp.ResetMotherlodeHandOff | program/src/reset.rs:245-257 | On a hit the round takes the whole pot and the pot restarts from the new fifth. Otherwise the pot just grows, and a split sets the split marker. |
| ResetOp.SanityHoldsOnConsistentRound | program/src/reset.rs:225-233 | On a round whose other squares and winning stake fit in its SOL, the sanity assertion cannot fail. |
| ResetOp.ResetSettlesConsistentRound | program/src/reset.rs:20-257 | A due reset of a drawn round succeeds whenever the round is consistent: the winning square exists, its stake and the other squares' SOL fit in the round's SOL, and the balance and the pot have room. |
| ResetOp.ProcessReset | program/src/reset.rs:20-331 | The in-place Reset: its settlement and its writes to the Board, Round and Treasury are the function's, and the opened round is a new Round equal to `NextRound`. On failure nothing is written. |
| ResetOp.RefundInPlace | program/src/reset.rs:91-126 | The in-place refund path: the round's totals are zeroed and the Board advances, or it panics at the last slot. |
| ResetOp.SettleDrawn | program/src/reset.rs:128-147 | The in-place settlement with an rng value, equal to the pure one. |
| ResetOp.SettleNoWinner | program/src/reset.rs:146-195 | The in-place no-winner path, equal to the pure one. |
| ResetOp.AdvanceInPlace | program/src/reset.rs:182-185 | The Board is advanced in place. |
| ResetOp.SettleWinners | program/src/reset.rs:198-331 | The in-place winners path, equal to the pure one. |
| ResetOp.RecordWinners | program/src/reset.rs:217-257 | The winners path's writes to the Round and the Treasury. |
| ResetOp.RecordRound | program/src/reset.rs:217-252 | Only the round's slot hash, winnings, vault, top-miner reward, split marker and motherlode change. |
| ResetOp.RecordTreasury | program/src/reset.rs:220-257 | Only the balance and motherlode change: the pot is emptied on a hit, then topped up. |
| StashOp.Stash | program/src/stash.rs:37-98 | An empty Garage fails with GarageRequired, then exhaustion with GarageExhausted, then no rewards with NoRewardsAvailable, and other failures are overflows. On success the miner's rewards are zeroed, the Treasury reward totals drop (saturating), and the whole amount goes to the deposit and the TVL. The clock restarts and the cap follows. It succeeds exactly when a Garage is present and not exhausted, there are rewards, and the deposit and TVL can take them. |
| StashOp.StashKeepsCapConsistent | program/src/stash.rs:86-92 | After a Stash the cap still matches the deposit and the claims stay within it. |
| StashOp.StashIsFeeFree | program/src/stash.rs:86-98 | The deposit and the TVL grow by exactly the miner's rewards. The pool and claims are untouched. |
| StashOp.StashExample | api/src/lib.rs:315-338 | Stashing 50 FUEL onto 100 FUEL gives 150 FUEL and a cap of 547.5 FUEL. |
| StashOp.ProcessStash | program/src/stash.rs:37-112 | The in-place Stash: its event and its writes to the Garage, Miner and Treasury are the function's, or nothing is written. |

## Findings

| source | as written | input that shows it | evidently intended | confidence | as-written member | corrected member |
|---|---|---|---|---|---|---|
| program/src/fuel_up.rs:127-157 with api/src/state/garage.rs:52-54 | A first deposit creates a Garage whose cap and claims are both 0. The exhaustion check `total_claimed >= max_payout` then reads `0 >= 0`, so the call fails with GarageExhausted. | Any first deposit that passes the earlier checks, with a valid referrer Garage. | The check applies to existing Garages; a new Garage gets its deposit and cap first. | not executed | FuelUpOp.FirstDepositAlwaysFails | FuelUpOp.FuelUpIntended, FuelUpOp.IntendedFirstDepositSucceeds |

None of the available instruction files creates a Garage; `initialize.rs` creates only the Treasury, Config, Board and first Round. The other instructions the program dispatches are not part of this model: automate, bury, checkpoint, claim_ore, claim_sol, close, deploy, liq, log, new_var, reload_sol, set_admin and wrap. As written, then, no Garage can ever exist, and so Boost, Collect, Stash and any later FuelUp cannot succeed. `FuelUpOp.FuelUp` and `FuelUpOp.ProcessFuelUp` model the code as written; `FuelUpOp.FuelUpIntended` is the corrected operation. Even so, it still needs an existing referrer Garage for a first deposit: its contract says `user.None? && r.Ok? ==> referrer.Account?`, as `program/src/fuel_up.rs:107-110` demands. So from the state that `initialize.rs` leaves, the corrected operation cannot create the first Garage either, unless one of the instructions outside this model creates it.

## Left out

- Account validation is not modelled: signer, writability, PDA seeds, owners, program ids, the fee collector address and the token account checks. The reset next-round seeds are left out apart from the `round_id + 1` overflow. The model assumes the accounts passed are the right ones. The authority checks it keeps are the ones in FuelUp and the Reset round id and slot checks.
- A failing `assert_mut` is modelled as `InvalidAccountData`. The error the account framework actually returns is not part of this model.
- Token CPIs (transfer, mint, burn, SOL sends, account creation) are not modelled. Only the amounts they move are: the Collect payout, the ClaimWallet mints, the FuelUp burn and the Reset settlement.
- `Miner::update_rewards` is a call into code that is not part of this model. Stash and ClaimWallet take the Miner's reward fields as already updated.
- The Round's `rng`, `winning_square`, `calculate_total_winnings`, `is_split_reward`, `did_hit_motherlode` and `top_miner_sample` are not part of this model. Reset takes their results as an input `Draw`, and the supply of the FUEL mint as an input.
- The randomness-variable checks of Reset (address, authority, non-zero hashes) and the keccak wrapping are left out, since hashing is opaque here. The model takes the value as given.
- The top-miner check in Reset only logs, so it is left out.
- Event byte layouts, the ResetEvent, and all `sol_log` output are logging. The Garage events are kept as values.
- The buyback, initialize, program entry and instruction decoding files are outside the Garage accounting and round settlement.
- Constants that no modelled operation reads are left out: the time and slot constants beyond a day, the seeds, the addresses other than the split marker, and the Boost and Collect team/pool sub-splits.
- The FuelUp team fee is computed and reported but never paid out: the source only leaves a TODO, and the model does the same.
- Plain Rust `+` (`end_slot + 35`, `round_id + 1`, `slot + 1`, `motherlode +=`) is modelled as a panic on overflow; this assumes the release profile checks overflow. A `checked_*` call that the operands make impossible to fail is written as plain arithmetic, with a comment that it cannot fail.
- Reset returns the opened next round as a new object from `ResetOp.ProcessReset`, and not as part of `ResetOutcome`.
- Consts.WhaleTaxFullOwnership: requires the TVL to be at most `u64::MAX / 1000`. Above that, the saturating product under-reports the share (`Consts.WhaleTaxSaturatedShare`), so the cap is not reached for every full owner.
- The clock is read once per instruction; it is the input `now` (Garage instructions) or `slot` (Reset).
