/**
 * The program accounts, other than the Garage, that the Garage operations and
 * the round reset read and update: the Treasury ledger, a Miner's FUEL reward
 * fields, the Board and a Round. Each is a class whose fields are updated in
 * place, with a record datatype `...Rec` for its current values.
 */
module Accounts {
  import opened Primitives

  /** The Treasury ledger fields the core touches. */
  datatype TreasuryRec = TreasuryRec(
    balance: U64,
    motherlode: U64,
    totalRefined: U64,
    totalUnclaimed: U64,
    garagePool: U64,
    totalGarageTvl: U64)

  /** The Treasury singleton created by `initialize`: every field zero. */
  const INITIAL_TREASURY: TreasuryRec := TreasuryRec(0, 0, 0, 0, 0, 0)

  class Treasury {
    /** SOL collected for buy-and-bury. */
    var balance: U64
    /** FUEL in the motherlode rewards pot. */
    var motherlode: U64
    var totalRefined: U64
    var totalUnclaimed: U64
    /** FUEL set aside for Garage withdrawals. */
    var garagePool: U64
    /** FUEL deposited across all Garages (the whale-tax denominator). */
    var totalGarageTvl: U64

    function Rec(): TreasuryRec
      reads this
    {
      TreasuryRec(balance, motherlode, totalRefined, totalUnclaimed, garagePool, totalGarageTvl)
    }

    constructor (r: TreasuryRec)
      ensures Rec() == r
    {
      balance, motherlode, totalRefined := r.balance, r.motherlode, r.totalRefined;
      totalUnclaimed, garagePool, totalGarageTvl := r.totalUnclaimed, r.garagePool, r.totalGarageTvl;
    }
  }

  /** A Miner's FUEL reward fields, as they stand after `Miner::update_rewards`. */
  datatype MinerRec = MinerRec(
    authority: Pubkey,
    rewardsOre: U64,
    refinedOre: U64,
    lastClaimOreAt: I64)

  class Miner {
    var authority: Pubkey
    var rewardsOre: U64
    var refinedOre: U64
    var lastClaimOreAt: I64

    function Rec(): MinerRec
      reads this
    {
      MinerRec(authority, rewardsOre, refinedOre, lastClaimOreAt)
    }

    constructor (r: MinerRec)
      ensures Rec() == r
    {
      authority, rewardsOre, refinedOre, lastClaimOreAt := r.authority, r.rewardsOre, r.refinedOre, r.lastClaimOreAt;
    }
  }

  /** The Board: the current round id and its slot window. */
  datatype BoardRec = BoardRec(roundId: U64, startSlot: U64, endSlot: U64)

  class Board {
    var roundId: U64
    var startSlot: U64
    var endSlot: U64

    function Rec(): BoardRec
      reads this
    {
      BoardRec(roundId, startSlot, endSlot)
    }

    constructor (r: BoardRec)
      ensures Rec() == r
    {
      roundId, startSlot, endSlot := r.roundId, r.startSlot, r.endSlot;
    }
  }

  const BOARD_SQUARES: nat := 25
  const SLOT_HASH_BYTES: nat := 32

  /** A Round: SOL deployed per square, miner counts per square and the settlement totals. */
  datatype RoundRec = RoundRec(
    id: U64,
    deployed: seq<U64>,
    slotHash: seq<bv8>,
    count: seq<U64>,
    expiresAt: U64,
    rentPayer: Pubkey,
    motherlode: U64,
    topMiner: Pubkey,
    topMinerReward: U64,
    totalDeployed: U64,
    totalVaulted: U64,
    totalWinnings: U64)

  /** The fixed array lengths of a Round account. */
  predicate WellFormedRound(r: RoundRec) {
    |r.deployed| == BOARD_SQUARES && |r.count| == BOARD_SQUARES && |r.slotHash| == SLOT_HASH_BYTES
  }

  class Round {
    var id: U64
    var deployed: seq<U64>
    var slotHash: seq<bv8>
    var count: seq<U64>
    var expiresAt: U64
    var rentPayer: Pubkey
    var motherlode: U64
    var topMiner: Pubkey
    var topMinerReward: U64
    var totalDeployed: U64
    var totalVaulted: U64
    var totalWinnings: U64

    function Rec(): RoundRec
      reads this
    {
      RoundRec(id, deployed, slotHash, count, expiresAt, rentPayer, motherlode,
               topMiner, topMinerReward, totalDeployed, totalVaulted, totalWinnings)
    }

    constructor (r: RoundRec)
      ensures Rec() == r
    {
      id, deployed, slotHash, count := r.id, r.deployed, r.slotHash, r.count;
      expiresAt, rentPayer, motherlode := r.expiresAt, r.rentPayer, r.motherlode;
      topMiner, topMinerReward := r.topMiner, r.topMinerReward;
      totalDeployed, totalVaulted, totalWinnings := r.totalDeployed, r.totalVaulted, r.totalWinnings;
    }
  }
}
