/**
 * Reset: settle a finished round and open the next one. The round's SOL pays
 * a 3 % team fee and a 7 % buyback fee; without a winner the rest is vaulted
 * into the Treasury balance, with winners the winnings are recorded; a
 * supply-capped FUEL reward is minted for the top miner and the motherlode
 * pot; the Board moves to the next round.
 */
module ResetOp {
  import opened Primitives
  import opened Errors
  import opened Consts
  import opened Accounts

  /**
   * The outcome of the round's randomness, computed by Round methods that
   * are not part of this model: no rng value at all, or the rng value with
   * the winning square, the SOL deployed on the other squares, and whether
   * the top-miner reward is split and the motherlode was hit.
   */
  datatype Draw =
    | NoRng
    | Drawn(rng: U64, winningSquare: nat, rawWinnings: U64, isSplit: bool, hitMotherlode: bool)

  /** The SOL sent out of the round account, and the FUEL minted to the Treasury. */
  datatype Settlement = Settlement(toFeeCollector: U64, toTreasury: U64, minted: U64)

  /** The settled round, the advanced Board, the Treasury and the settlement amounts. */
  datatype ResetOutcome = ResetOutcome(
    round: RoundRec,
    board: BoardRec,
    treasury: TreasuryRec,
    settlement: Settlement)

  /** The round the reset opens: nothing deployed, no miners, waiting for its first deploy. */
  function NextRound(id: U64, signer: Pubkey): (r: RoundRec)
    ensures WellFormedRound(r) && r.id == id && r.rentPayer == signer
    ensures forall i :: 0 <= i < BOARD_SQUARES ==> r.deployed[i] == 0 && r.count[i] == 0
    ensures forall i :: 0 <= i < SLOT_HASH_BYTES ==> r.slotHash[i] == 0
    ensures r.expiresAt == U64_MAX && r.topMiner == DEFAULT_PUBKEY
    ensures r.motherlode == r.topMinerReward == r.totalDeployed == r.totalVaulted == r.totalWinnings == 0
  {
    RoundRec(id, seq(BOARD_SQUARES, _ => 0), seq(SLOT_HASH_BYTES, _ => 0), seq(BOARD_SQUARES, _ => 0),
             U64_MAX, signer, 0, DEFAULT_PUBKEY, 0, 0, 0, 0)
  }

  /** The Board has moved to the next round, which starts at the slot after `slot` and has no end yet. */
  predicate Advanced(b: BoardRec, slot: U64, b': BoardRec) {
    b'.roundId == b.roundId + 1 && b'.startSlot == slot + 1 && b'.endSlot == U64_MAX
  }

  function AdvanceBoard(b: BoardRec, slot: U64): (r: Result<BoardRec>)
    requires b.roundId < U64_MAX
    ensures slot == U64_MAX <==> r == Err(Panic)
    ensures r.Ok? ==> Advanced(b, slot, r.value)
  {
    if slot == U64_MAX then Err(Panic)
    else Ok(BoardRec(b.roundId + 1, slot + 1, U64_MAX))
  }

  /**
   * The FUEL minted by a settled round: up to one FUEL for the top miner and
   * then up to a fifth of a FUEL for the motherlode, each limited by what is
   * left under the maximum supply.
   */
  function MintAmounts(supply: U64): (r: (U64, U64))
    ensures r.0 <= ONE_FUEL && r.1 <= ONE_FUEL / 5
    ensures supply <= MAX_SUPPLY ==> supply + r.0 + r.1 <= MAX_SUPPLY
    ensures supply + ONE_FUEL + ONE_FUEL / 5 <= MAX_SUPPLY ==> r == (ONE_FUEL, ONE_FUEL / 5)
    ensures supply >= MAX_SUPPLY ==> r == (0, 0)
  {
    var mintAmount := Min(SaturatingSub(MAX_SUPPLY, supply), ONE_FUEL);
    // the plain addition cannot overflow: `mintAmount` fits under the cap, or is 0 above it
    var supply' := supply + mintAmount;
    (mintAmount, Min(SaturatingSub(MAX_SUPPLY, supply'), ONE_FUEL / 5))
  }

  /** With 0.5 FUEL of room left, the top miner gets it all and the motherlode nothing. */
  lemma MintAmountsNearCap()
    ensures MintAmounts(MAX_SUPPLY - ONE_FUEL / 2) == (ONE_FUEL / 2, 0)
    ensures MintAmounts(MAX_SUPPLY - ONE_FUEL - 1) == (ONE_FUEL, 1)
  {
  }

  /**
   * A reset is due: the intermission after the round's end has passed, the
   * round is the Board's current one, and neither the round id nor the slot
   * is at `u64::MAX`, so the Board can move on.
   */
  predicate Timely(slot: U64, board: BoardRec, round: RoundRec) {
    board.endSlot + INTERMISSION_SLOTS <= slot < U64_MAX && round.id == board.roundId < U64_MAX
  }

  /**
   * A drawn round whose figures are consistent: the winning square exists,
   * the other squares' SOL and the winners' stake fit in the round's SOL,
   * which is small enough for its fees, and the Treasury balance and the
   * motherlode pot have room for what the settlement adds.
   */
  predicate ConsistentDraw(ws: nat, raw: U64, round: RoundRec, t: TreasuryRec) {
    && ws < |round.deployed|
    && round.totalDeployed <= U64_MAX / DENOMINATOR_BPS
    && raw + round.deployed[ws] <= round.totalDeployed
    && t.balance + round.totalDeployed <= U64_MAX
    && t.motherlode + ONE_FUEL <= U64_MAX
  }

  /**
   * `process_reset` at `slot`, signed by `signer`, with the FUEL mint's
   * current `supply`, the randomness variable's value and the draw.
   */
  function Reset(signer: Pubkey, slot: U64, supply: U64, varValue: seq<bv8>, draw: Draw,
                 board: BoardRec, round: RoundRec, t: TreasuryRec): (r: Result<ResetOutcome>)
    requires WellFormedRound(round) && |varValue| == SLOT_HASH_BYTES
    ensures board.endSlot + INTERMISSION_SLOTS > U64_MAX ==> r == Err(Panic)
    ensures board.endSlot + INTERMISSION_SLOTS <= U64_MAX && slot < board.endSlot + INTERMISSION_SLOTS ==>
              r == Err(InvalidAccountData)
    ensures board.endSlot + INTERMISSION_SLOTS <= slot && round.id != board.roundId ==> r == Err(InvalidAccountData)
    ensures board.endSlot + INTERMISSION_SLOTS <= slot && round.id == board.roundId == U64_MAX ==> r == Err(Panic)
    ensures Timely(slot, board, round) && draw.NoRng? ==> r.Ok?
    ensures Timely(slot, board, round) && draw.Drawn? && round.totalDeployed * SPRINT_BUYBACK_FEE_BPS > U64_MAX ==>
              r == Err(ArithmeticOverflow)
    ensures r.Ok? ==>
      && Timely(slot, board, round)
      && Advanced(board, slot, r.value.board)
      && r.value.round.slotHash == varValue
      && r.value.round.id == round.id
      && r.value.round.deployed == round.deployed && r.value.round.count == round.count
      && (draw.Drawn? ==> r.value.round.totalDeployed == round.totalDeployed)
  {
    if board.endSlot + INTERMISSION_SLOTS > U64_MAX then Err(Panic)
    else if slot < board.endSlot + INTERMISSION_SLOTS then Err(InvalidAccountData)
    else if round.id != board.roundId then Err(InvalidAccountData)
    else if board.roundId == U64_MAX then Err(Panic)
    else
      var round' := round.(slotHash := varValue);
      match draw
      case NoRng =>
        var board' :- AdvanceBoard(board, slot);
        Ok(ResetOutcome(round'.(totalVaulted := 0, totalWinnings := 0, totalDeployed := 0), board', t,
                        Settlement(0, 0, 0)))
      case Drawn(_, ws, raw, isSplit, hit) =>
        Settle(slot, supply, ws, raw, isSplit, hit, board, round', t)
  }

  /** The protocol fees on the round's deployed SOL, then the no-winner or the winners settlement. */
  function Settle(slot: U64, supply: U64, ws: nat, raw: U64, isSplit: bool, hit: bool,
                  board: BoardRec, round: RoundRec, t: TreasuryRec): (r: Result<ResetOutcome>)
    requires WellFormedRound(round) && board.roundId < U64_MAX
    ensures round.totalDeployed * SPRINT_BUYBACK_FEE_BPS > U64_MAX ==> r == Err(ArithmeticOverflow)
    ensures round.totalDeployed * SPRINT_BUYBACK_FEE_BPS <= U64_MAX && ws >= BOARD_SQUARES ==> r == Err(Panic)
    ensures r.Err? ==> r.error in {ArithmeticOverflow, Panic}
    ensures r.Ok? <==>
      && round.totalDeployed * SPRINT_BUYBACK_FEE_BPS <= U64_MAX && ws < BOARD_SQUARES
      && if round.deployed[ws] == 0
         then VaultFits(slot, round.totalDeployed * SPRINT_TEAM_FEE_BPS / DENOMINATOR_BPS,
                        round.totalDeployed * SPRINT_BUYBACK_FEE_BPS / DENOMINATOR_BPS, round, t)
         else WinningsFit(slot, supply, ws, raw, hit, round, t)
    ensures r.Ok? ==> ws < BOARD_SQUARES
    ensures r.Ok? ==> r.value.round.(totalVaulted := round.totalVaulted, totalWinnings := round.totalWinnings,
                                     topMiner := round.topMiner, topMinerReward := round.topMinerReward,
                                     motherlode := round.motherlode) == round
    ensures r.Ok? ==> Advanced(board, slot, r.value.board)
  {
    var teamFee :- Checked(BpsOf(round.totalDeployed, SPRINT_TEAM_FEE_BPS));
    var buybackFee :- Checked(BpsOf(round.totalDeployed, SPRINT_BUYBACK_FEE_BPS));
    if ws >= BOARD_SQUARES then Err(Panic)
    else if round.deployed[ws] == 0 then NoWinner(slot, teamFee, buybackFee, board, round, t)
    else Winners(slot, supply, ws, raw, isSplit, hit, board, round, t)
  }

  /** The no-winner path succeeds: the Board can advance and the balance can take the vault. */
  predicate VaultFits(slot: U64, teamFee: U64, buybackFee: U64, round: RoundRec, t: TreasuryRec) {
    slot < U64_MAX && t.balance + (round.totalDeployed - teamFee - buybackFee) <= U64_MAX
  }

  /**
   * The winners path succeeds: the fees on the other squares' SOL are defined
   * and fit in it, the balance can take the buyback, the sanity assertion
   * holds, the pot can take the new fifth and the Board can advance.
   */
  predicate WinningsFit(slot: U64, supply: U64, ws: nat, raw: U64, hit: bool, round: RoundRec, t: TreasuryRec)
    requires ws < |round.deployed|
  {
    && BpsOf(raw, SPRINT_TEAM_FEE_BPS).Some? && BpsOf(raw, SPRINT_BUYBACK_FEE_BPS).Some?
    && var team, buyback := BpsOf(raw, SPRINT_TEAM_FEE_BPS).value, BpsOf(raw, SPRINT_BUYBACK_FEE_BPS).value;
    && t.balance + buyback <= U64_MAX
    && team + buyback <= raw
    && SanityHolds(round.totalDeployed, buyback, raw - team - buyback, round.deployed[ws], team)
    && (if hit then 0 else t.motherlode) + MintAmounts(supply).1 <= U64_MAX
    && slot < U64_MAX
  }

  /** No SOL on the winning square: everything but the protocol fees is vaulted into the Treasury balance. */
  function NoWinner(slot: U64, teamFee: U64, buybackFee: U64, board: BoardRec, round: RoundRec, t: TreasuryRec)
   : (r: Result<ResetOutcome>)
    requires board.roundId < U64_MAX
    requires BpsOf(round.totalDeployed, SPRINT_TEAM_FEE_BPS) == Some(teamFee)
    requires BpsOf(round.totalDeployed, SPRINT_BUYBACK_FEE_BPS) == Some(buybackFee)
    ensures r.Err? ==> r.error in {ArithmeticOverflow, Panic}
    ensures r.Ok? ==>
      var o := r.value;
      && o.round == round.(totalVaulted := o.round.totalVaulted)
      && o.round.totalVaulted + teamFee + buybackFee == round.totalDeployed
      && o.treasury == t.(balance := o.treasury.balance)
      && o.treasury.balance == t.balance + o.round.totalVaulted
      && o.settlement == Settlement(teamFee, buybackFee + o.round.totalVaulted, 0)
      && Advanced(board, slot, o.board)
    ensures r.Ok? <==> VaultFits(slot, teamFee, buybackFee, round, t)
  {
    BpsOfBounded(round.totalDeployed, SPRINT_TEAM_FEE_BPS);
    BpsOfBounded(round.totalDeployed, SPRINT_BUYBACK_FEE_BPS);
    // neither the checked sum of the fees, nor the checked vault, nor the
    // checked buyback-plus-vault can fail: each is at most the round's SOL
    var vault := round.totalDeployed - (teamFee + buybackFee);
    var balance :- Checked(CheckedAdd(t.balance, vault));
    var board' :- AdvanceBoard(board, slot);
    Ok(ResetOutcome(round.(totalVaulted := vault), board', t.(balance := balance),
                    Settlement(teamFee, buybackFee + vault, 0)))
  }

  /**
   * The sanity assertion of the winners path: the round's SOL covers the
   * vaulted and winning amounts, the winners' own stake and the team fee (a
   * sum that overflows counts as `u64::MAX`).
   */
  predicate SanityHolds(totalDeployed: U64, vaulted: U64, winnings: U64, stake: U64, teamFee: U64) {
    var sum := vaulted + winnings + stake + teamFee;
    totalDeployed >= (if sum <= U64_MAX then sum else U64_MAX)
  }

  /**
   * Winners: 3 % and 7 % of the other squares' SOL go to the team and the
   * Treasury, the rest is the winnings; the top-miner and motherlode FUEL is
   * minted within the supply cap, and on a motherlode hit the pot moves from
   * the Treasury to the round before the new fifth of a FUEL is added to it.
   */
  function Winners(slot: U64, supply: U64, ws: nat, raw: U64, isSplit: bool, hit: bool,
                   board: BoardRec, round: RoundRec, t: TreasuryRec): (r: Result<ResetOutcome>)
    requires WellFormedRound(round) && board.roundId < U64_MAX && ws < BOARD_SQUARES
    ensures r.Err? ==> r.error in {ArithmeticOverflow, Panic}
    ensures r.Ok? ==>
      var o, (mint, mlMint) := r.value, MintAmounts(supply);
      && BpsOf(raw, SPRINT_TEAM_FEE_BPS) == Some(o.settlement.toFeeCollector)
      && BpsOf(raw, SPRINT_BUYBACK_FEE_BPS) == Some(o.settlement.toTreasury)
      && o.round.totalWinnings + o.settlement.toFeeCollector + o.settlement.toTreasury == raw
      && o.round.totalVaulted == o.settlement.toTreasury
      && SanityHolds(round.totalDeployed, o.round.totalVaulted, o.round.totalWinnings, round.deployed[ws],
                     o.settlement.toFeeCollector)
      && o.round.topMinerReward == mint
      && o.round.topMiner == (if isSplit then SPLIT_ADDRESS else round.topMiner)
      && o.round.motherlode == (if hit then t.motherlode else round.motherlode)
      && o.round == round.(totalVaulted := o.round.totalVaulted, totalWinnings := o.round.totalWinnings,
                           topMiner := o.round.topMiner, topMinerReward := mint, motherlode := o.round.motherlode)
      && o.treasury.balance == t.balance + o.settlement.toTreasury
      && o.treasury.motherlode == (if hit then 0 else t.motherlode) + mlMint
      && o.treasury == t.(balance := o.treasury.balance, motherlode := o.treasury.motherlode)
      && o.settlement.minted == mint + mlMint
      && Advanced(board, slot, o.board)
    ensures r.Ok? <==> WinningsFit(slot, supply, ws, raw, hit, round, t)
  {
    var teamFee :- Checked(BpsOf(raw, SPRINT_TEAM_FEE_BPS));
    var buybackFee :- Checked(BpsOf(raw, SPRINT_BUYBACK_FEE_BPS));
    BpsOfBounded(raw, SPRINT_TEAM_FEE_BPS);
    BpsOfBounded(raw, SPRINT_BUYBACK_FEE_BPS);
    // the two checked subtractions cannot fail: the fees are 10 % of `raw`
    var winnings := raw - teamFee - buybackFee;
    var balance :- Checked(CheckedAdd(t.balance, buybackFee));
    if !SanityHolds(round.totalDeployed, buybackFee, winnings, round.deployed[ws], teamFee) then Err(Panic)
    else
      var (mint, mlMint) := MintAmounts(supply);
      var pot := if hit then 0 else t.motherlode;
      if pot + mlMint > U64_MAX then Err(Panic)
      else
        var board' :- AdvanceBoard(board, slot);
        var round' := round.(totalWinnings := winnings, totalVaulted := buybackFee, topMinerReward := mint,
                             topMiner := if isSplit then SPLIT_ADDRESS else round.topMiner,
                             motherlode := if hit then t.motherlode else round.motherlode);
        Ok(ResetOutcome(round', board', t.(balance := balance, motherlode := pot + mlMint),
                        Settlement(teamFee, buybackFee, mint + mlMint)))
  }

  /** A round with no rng value refunds: its totals are zeroed, no Treasury field changes, nothing is sent or minted. */
  lemma ResetWithoutRngRefunds(signer: Pubkey, slot: U64, supply: U64, varValue: seq<bv8>,
                               board: BoardRec, round: RoundRec, t: TreasuryRec)
    requires WellFormedRound(round) && |varValue| == SLOT_HASH_BYTES
    requires Reset(signer, slot, supply, varValue, NoRng, board, round, t).Ok?
    ensures var o := Reset(signer, slot, supply, varValue, NoRng, board, round, t).value;
      && o.treasury == t
      && o.round.totalVaulted == o.round.totalWinnings == o.round.totalDeployed == 0
      && o.settlement == Settlement(0, 0, 0)
  {
  }

  /**
   * With no SOL on the winning square, the team fee, the buyback fee and the
   * vault make up the round's SOL, so the vault is at least 90 % of it; the
   * Treasury balance grows by the vault, all of the round's SOL leaves the
   * round account and no FUEL is minted.
   */
  lemma ResetWithoutWinnerVaults(signer: Pubkey, slot: U64, supply: U64, varValue: seq<bv8>, d: Draw,
                                 board: BoardRec, round: RoundRec, t: TreasuryRec)
    requires WellFormedRound(round) && |varValue| == SLOT_HASH_BYTES
    requires d.Drawn? && d.winningSquare < BOARD_SQUARES && round.deployed[d.winningSquare] == 0
    requires Reset(signer, slot, supply, varValue, d, board, round, t).Ok?
    ensures var o := Reset(signer, slot, supply, varValue, d, board, round, t).value;
      && BpsOf(round.totalDeployed, SPRINT_TEAM_FEE_BPS) == Some(o.settlement.toFeeCollector)
      && o.round.totalVaulted * DENOMINATOR_BPS >= round.totalDeployed * (DENOMINATOR_BPS - SPRINT_PROTOCOL_FEE_BPS)
      && o.settlement.toFeeCollector + o.settlement.toTreasury == round.totalDeployed
      && o.treasury.balance == t.balance + o.round.totalVaulted
      && o.treasury.motherlode == t.motherlode
      && o.settlement.minted == 0
  {
    var o := Reset(signer, slot, supply, varValue, d, board, round, t).value;
    var team := BpsOf(round.totalDeployed, SPRINT_TEAM_FEE_BPS).value;
    var buyback := BpsOf(round.totalDeployed, SPRINT_BUYBACK_FEE_BPS).value;
    // each floor rounds down, so the vault keeps the rounding of both fees
    assert (team + buyback) * DENOMINATOR_BPS <= round.totalDeployed * SPRINT_PROTOCOL_FEE_BPS;
  }

  /**
   * With winners, the winnings and the two fees make up the other squares'
   * SOL, and the buyback fee is both what is vaulted and what the Treasury
   * balance gains.
   */
  lemma ResetWinnersSplit(signer: Pubkey, slot: U64, supply: U64, varValue: seq<bv8>, d: Draw,
                          board: BoardRec, round: RoundRec, t: TreasuryRec)
    requires WellFormedRound(round) && |varValue| == SLOT_HASH_BYTES
    requires d.Drawn? && d.winningSquare < BOARD_SQUARES && round.deployed[d.winningSquare] > 0
    requires Reset(signer, slot, supply, varValue, d, board, round, t).Ok?
    ensures var o := Reset(signer, slot, supply, varValue, d, board, round, t).value;
      && o.round.totalWinnings + o.settlement.toFeeCollector + o.settlement.toTreasury == d.rawWinnings
      && o.round.totalVaulted == o.settlement.toTreasury
      && o.treasury.balance == t.balance + o.settlement.toTreasury
      && o.round.topMinerReward == MintAmounts(supply).0
      && o.settlement.minted == MintAmounts(supply).0 + MintAmounts(supply).1
  {
  }

  /** A reset never mints past the maximum supply. */
  lemma ResetRespectsSupplyCap(signer: Pubkey, slot: U64, supply: U64, varValue: seq<bv8>, d: Draw,
                               board: BoardRec, round: RoundRec, t: TreasuryRec)
    requires WellFormedRound(round) && |varValue| == SLOT_HASH_BYTES && supply <= MAX_SUPPLY
    requires Reset(signer, slot, supply, varValue, d, board, round, t).Ok?
    ensures supply + Reset(signer, slot, supply, varValue, d, board, round, t).value.settlement.minted <= MAX_SUPPLY
  {
  }

  /**
   * The motherlode hand-off: on a hit the round takes the Treasury's whole pot
   * and the pot restarts from the new fifth of a FUEL; otherwise the pot
   * just grows by it.
   */
  lemma ResetMotherlodeHandOff(signer: Pubkey, slot: U64, supply: U64, varValue: seq<bv8>, d: Draw,
                               board: BoardRec, round: RoundRec, t: TreasuryRec)
    requires WellFormedRound(round) && |varValue| == SLOT_HASH_BYTES
    requires d.Drawn? && d.winningSquare < BOARD_SQUARES && round.deployed[d.winningSquare] > 0
    requires Reset(signer, slot, supply, varValue, d, board, round, t).Ok?
    ensures var o := Reset(signer, slot, supply, varValue, d, board, round, t).value;
      && (d.hitMotherlode ==> o.round.motherlode == t.motherlode && o.treasury.motherlode == MintAmounts(supply).1)
      && (!d.hitMotherlode ==> o.round.motherlode == round.motherlode
                               && o.treasury.motherlode == t.motherlode + MintAmounts(supply).1)
      && (d.isSplit ==> o.round.topMiner == SPLIT_ADDRESS)
  {
  }

  /** A due reset of a consistently drawn round succeeds, with or without a winner. */
  lemma ResetSettlesConsistentRound(signer: Pubkey, slot: U64, supply: U64, varValue: seq<bv8>, d: Draw,
                                    board: BoardRec, round: RoundRec, t: TreasuryRec)
    requires WellFormedRound(round) && |varValue| == SLOT_HASH_BYTES
    requires Timely(slot, board, round) && d.Drawn? && ConsistentDraw(d.winningSquare, d.rawWinnings, round, t)
    ensures Reset(signer, slot, supply, varValue, d, board, round, t).Ok?
  {
    var ws, raw := d.winningSquare, d.rawWinnings;
    BpsOfDefined(round.totalDeployed, SPRINT_TEAM_FEE_BPS);
    BpsOfDefined(round.totalDeployed, SPRINT_BUYBACK_FEE_BPS);
    if round.deployed[ws] > 0 {
      BpsOfDefined(raw, SPRINT_TEAM_FEE_BPS);
      BpsOfDefined(raw, SPRINT_BUYBACK_FEE_BPS);
      SanityHoldsOnConsistentRound(round.totalDeployed, raw, round.deployed[ws]);
    }
  }

  /**
   * The sanity assertion cannot fail on a consistent round: when the other
   * squares' SOL and the winners' stake together are at most the round's SOL,
   * vault, winnings, stake and team fee fit under it.
   */
  lemma SanityHoldsOnConsistentRound(totalDeployed: U64, raw: U64, stake: U64)
    requires raw + stake <= totalDeployed
    requires BpsOf(raw, SPRINT_TEAM_FEE_BPS).Some? && BpsOf(raw, SPRINT_BUYBACK_FEE_BPS).Some?
    ensures var team, buyback := BpsOf(raw, SPRINT_TEAM_FEE_BPS).value, BpsOf(raw, SPRINT_BUYBACK_FEE_BPS).value;
      team + buyback <= raw && SanityHolds(totalDeployed, buyback, raw - team - buyback, stake, team)
  {
    BpsOfBounded(raw, SPRINT_TEAM_FEE_BPS);
    BpsOfBounded(raw, SPRINT_BUYBACK_FEE_BPS);
  }

  /**
   * The instruction over the live accounts: the checks, then the settlement
   * computed in full, then the Round, Treasury and Board fields written;
   * the opened round is returned as a new object. On failure
   * nothing is written.
   */
  method ProcessReset(signer: Pubkey, slot: U64, supply: U64, varValue: seq<bv8>, draw: Draw,
                      board: Board, round: Round, treasury: Treasury)
    returns (r: Result<Settlement>, next: Round?)
    requires WellFormedRound(round.Rec()) && |varValue| == SLOT_HASH_BYTES
    modifies board, round, treasury
    ensures var s := Reset(signer, slot, supply, varValue, draw, old(board.Rec()), old(round.Rec()), old(treasury.Rec()));
      if s.Ok? then
        && r == Ok(s.value.settlement) && next != null && fresh(next) && next.Rec() == NextRound(old(board.roundId) + 1, signer)
        && board.Rec() == s.value.board && round.Rec() == s.value.round && treasury.Rec() == s.value.treasury
      else
        && r == Err(s.error)
        && board.Rec() == old(board.Rec()) && round.Rec() == old(round.Rec()) && treasury.Rec() == old(treasury.Rec())
  {
    next := null;
    if board.endSlot + INTERMISSION_SLOTS > U64_MAX {
      return Err(Panic), next;
    }
    if slot < board.endSlot + INTERMISSION_SLOTS || round.id != board.roundId {
      return Err(InvalidAccountData), next;
    }
    if board.roundId == U64_MAX {
      return Err(Panic), next;
    }
    next := new Round(NextRound(board.roundId + 1, signer));
    if draw.NoRng? {
      r := RefundInPlace(slot, varValue, board, round);
      return r, next;
    }
    ghost var round' := old(round.Rec()).(slotHash := varValue);
    assert Reset(signer, slot, supply, varValue, draw, old(board.Rec()), old(round.Rec()), old(treasury.Rec()))
        == Settle(slot, supply, draw.winningSquare, draw.rawWinnings, draw.isSplit, draw.hitMotherlode,
                  old(board.Rec()), round', old(treasury.Rec()));
    r := SettleDrawn(slot, supply, draw.winningSquare, draw.rawWinnings, draw.isSplit, draw.hitMotherlode, varValue,
                     board, round, treasury);
  }

  /** The settlement without a slot hash, over the live accounts: the round's totals are zeroed and the Board advances. */
  method RefundInPlace(slot: U64, varValue: seq<bv8>, board: Board, round: Round) returns (r: Result<Settlement>)
    requires board.roundId < U64_MAX
    modifies board, round
    ensures var b := AdvanceBoard(old(board.Rec()), slot);
      if b.Ok? then
        && r == Ok(Settlement(0, 0, 0)) && board.Rec() == b.value
        && round.Rec() == old(round.Rec()).(slotHash := varValue, totalVaulted := 0, totalWinnings := 0, totalDeployed := 0)
      else
        && r == Err(b.error) && board.Rec() == old(board.Rec()) && round.Rec() == old(round.Rec())
  {
    if slot == U64_MAX {
      return Err(Panic);
    }
    round.slotHash := varValue;
    round.totalVaulted, round.totalWinnings, round.totalDeployed := 0, 0, 0;
    AdvanceInPlace(board, slot);
    r := Ok(Settlement(0, 0, 0));
  }

  /** The protocol fees on the round's SOL, then the no-winner or the winners settlement, over the live accounts. */
  method SettleDrawn(slot: U64, supply: U64, ws: nat, raw: U64, isSplit: bool, hit: bool, varValue: seq<bv8>,
                     board: Board, round: Round, treasury: Treasury)
    returns (r: Result<Settlement>)
    requires WellFormedRound(round.Rec()) && |varValue| == SLOT_HASH_BYTES && board.roundId < U64_MAX
    modifies board, round, treasury
    ensures var s := Settle(slot, supply, ws, raw, isSplit, hit, old(board.Rec()), old(round.Rec()).(slotHash := varValue),
                            old(treasury.Rec()));
      if s.Ok? then
        && r == Ok(s.value.settlement)
        && board.Rec() == s.value.board && round.Rec() == s.value.round && treasury.Rec() == s.value.treasury
      else
        && r == Err(s.error)
        && board.Rec() == old(board.Rec()) && round.Rec() == old(round.Rec()) && treasury.Rec() == old(treasury.Rec())
  {
    var teamFee :- Checked(BpsOf(round.totalDeployed, SPRINT_TEAM_FEE_BPS));
    var buybackFee :- Checked(BpsOf(round.totalDeployed, SPRINT_BUYBACK_FEE_BPS));
    if ws >= BOARD_SQUARES {
      return Err(Panic);
    }
    if round.deployed[ws] == 0 {
      r := SettleNoWinner(slot, teamFee, buybackFee, varValue, board, round, treasury);
    } else {
      r := SettleWinners(slot, supply, ws, raw, isSplit, hit, varValue, board, round, treasury);
    }
  }

  /** The no-winner settlement over the live accounts. */
  method SettleNoWinner(slot: U64, teamFee: U64, buybackFee: U64, varValue: seq<bv8>,
                        board: Board, round: Round, treasury: Treasury)
    returns (r: Result<Settlement>)
    requires board.roundId < U64_MAX
    requires BpsOf(round.totalDeployed, SPRINT_TEAM_FEE_BPS) == Some(teamFee)
    requires BpsOf(round.totalDeployed, SPRINT_BUYBACK_FEE_BPS) == Some(buybackFee)
    modifies board, round, treasury
    ensures var s := NoWinner(slot, teamFee, buybackFee, old(board.Rec()), old(round.Rec()).(slotHash := varValue),
                              old(treasury.Rec()));
      if s.Ok? then
        && r == Ok(s.value.settlement)
        && board.Rec() == s.value.board && round.Rec() == s.value.round && treasury.Rec() == s.value.treasury
      else
        && r == Err(s.error)
        && board.Rec() == old(board.Rec()) && round.Rec() == old(round.Rec()) && treasury.Rec() == old(treasury.Rec())
  {
    BpsOfBounded(round.totalDeployed, SPRINT_TEAM_FEE_BPS);
    BpsOfBounded(round.totalDeployed, SPRINT_BUYBACK_FEE_BPS);
    var vault := round.totalDeployed - (teamFee + buybackFee);
    var balance :- Checked(CheckedAdd(treasury.balance, vault));
    if slot == U64_MAX {
      return Err(Panic);
    }
    round.slotHash := varValue;
    round.totalVaulted := vault;
    treasury.balance := balance;
    AdvanceInPlace(board, slot);
    r := Ok(Settlement(teamFee, buybackFee + vault, 0));
  }

  /** The Board's move to the next round, in place. */
  method AdvanceInPlace(board: Board, slot: U64)
    requires board.roundId < U64_MAX && slot < U64_MAX
    modifies board
    ensures Advanced(old(board.Rec()), slot, board.Rec())
  {
    board.roundId := board.roundId + 1;
    board.startSlot := slot + 1;
    board.endSlot := U64_MAX;
  }

  /** The winners settlement over the live accounts, with the mint supply as a running total. */
  method SettleWinners(slot: U64, supply: U64, ws: nat, raw: U64, isSplit: bool, hit: bool, varValue: seq<bv8>,
                       board: Board, round: Round, treasury: Treasury)
    returns (r: Result<Settlement>)
    requires WellFormedRound(round.Rec()) && |varValue| == SLOT_HASH_BYTES
    requires board.roundId < U64_MAX && ws < BOARD_SQUARES
    modifies board, round, treasury
    ensures var s := Winners(slot, supply, ws, raw, isSplit, hit, old(board.Rec()), old(round.Rec()).(slotHash := varValue),
                             old(treasury.Rec()));
      if s.Ok? then
        && r == Ok(s.value.settlement)
        && board.Rec() == s.value.board && round.Rec() == s.value.round && treasury.Rec() == s.value.treasury
      else
        && r == Err(s.error)
        && board.Rec() == old(board.Rec()) && round.Rec() == old(round.Rec()) && treasury.Rec() == old(treasury.Rec())
  {
    ghost var b0, r0, t0 := board.Rec(), round.Rec().(slotHash := varValue), treasury.Rec();
    ghost var s := Winners(slot, supply, ws, raw, isSplit, hit, b0, r0, t0);
    var teamFee :- Checked(BpsOf(raw, SPRINT_TEAM_FEE_BPS));
    var buybackFee :- Checked(BpsOf(raw, SPRINT_BUYBACK_FEE_BPS));
    BpsOfBounded(raw, SPRINT_TEAM_FEE_BPS);
    BpsOfBounded(raw, SPRINT_BUYBACK_FEE_BPS);
    var winnings := raw - teamFee - buybackFee;
    var balance :- Checked(CheckedAdd(treasury.balance, buybackFee));
    if !SanityHolds(round.totalDeployed, buybackFee, winnings, round.deployed[ws], teamFee) {
      return Err(Panic);
    }
    var mintSupply := supply;
    var mintAmount := Min(SaturatingSub(MAX_SUPPLY, mintSupply), ONE_FUEL);
    mintSupply := mintSupply + mintAmount;
    var mlMint := Min(SaturatingSub(MAX_SUPPLY, mintSupply), ONE_FUEL / 5);
    assert MintAmounts(supply) == (mintAmount, mlMint);
    var pot := if hit then 0 else treasury.motherlode;
    if pot + mlMint > U64_MAX || slot == U64_MAX {
      return Err(Panic);
    }

    RecordWinners(round, treasury, varValue, winnings, buybackFee, balance, mintAmount, mlMint, isSplit, hit);
    AdvanceInPlace(board, slot);
    r := Ok(Settlement(teamFee, buybackFee, mintAmount + mlMint));
    assert s == Ok(ResetOutcome(round.Rec(), board.Rec(), treasury.Rec(), r.value));
  }

  /**
   * The winners path's writes, Round first and then Treasury (the two
   * accounts are distinct, so the order in which their fields are written
   * is immaterial; within each account the source order is kept).
   */
  method RecordWinners(round: Round, treasury: Treasury, varValue: seq<bv8>, winnings: U64, vaulted: U64, balance: U64,
                       mint: U64, mlMint: U64, isSplit: bool, hit: bool)
    requires (if hit then 0 else treasury.motherlode) + mlMint <= U64_MAX
    modifies round, treasury
    ensures round.Rec() == old(round.Rec()).(slotHash := varValue, totalWinnings := winnings, totalVaulted := vaulted,
                                             topMinerReward := mint,
                                             topMiner := if isSplit then SPLIT_ADDRESS else old(round.topMiner),
                                             motherlode := if hit then old(treasury.motherlode) else old(round.motherlode))
    ensures treasury.balance == balance
    ensures treasury.motherlode == (if hit then 0 else old(treasury.motherlode)) + mlMint
    ensures treasury.Rec() == old(treasury.Rec()).(balance := balance, motherlode := treasury.motherlode)
  {
    RecordRound(round, varValue, winnings, vaulted, mint, isSplit, if hit then Some(treasury.motherlode) else None);
    RecordTreasury(treasury, balance, mlMint, hit);
  }

  /** The Round's settlement fields; `handOff` is the motherlode pot passed to the Round when it was hit. */
  method RecordRound(round: Round, varValue: seq<bv8>, winnings: U64, vaulted: U64, mint: U64, isSplit: bool,
                     handOff: Option<U64>)
    modifies round
    ensures round.Rec() == old(round.Rec()).(slotHash := varValue, totalWinnings := winnings, totalVaulted := vaulted,
                                             topMinerReward := mint,
                                             topMiner := if isSplit then SPLIT_ADDRESS else old(round.topMiner),
                                             motherlode := if handOff.Some? then handOff.value else old(round.motherlode))
  {
    round.slotHash := varValue;
    round.totalWinnings := winnings;
    round.totalVaulted := vaulted;
    round.topMinerReward := mint;
    if isSplit {
      round.topMiner := SPLIT_ADDRESS;
    }
    if handOff.Some? {
      round.motherlode := handOff.value;
    }
  }

  /** The Treasury's settlement fields: the buyback credit, then the motherlode emptied when hit and topped up. */
  method RecordTreasury(treasury: Treasury, balance: U64, mlMint: U64, hit: bool)
    requires (if hit then 0 else treasury.motherlode) + mlMint <= U64_MAX
    modifies treasury
    ensures treasury.motherlode == (if hit then 0 else old(treasury.motherlode)) + mlMint
    ensures treasury.Rec() == old(treasury.Rec()).(balance := balance, motherlode := treasury.motherlode)
  {
    treasury.balance := balance;
    if hit {
      treasury.motherlode := 0;
    }
    treasury.motherlode := treasury.motherlode + mlMint;
  }
}
