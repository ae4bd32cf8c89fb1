/** The pallets' configuration: every constant is symbolic, so all results hold for any runtime. */
module Config {

  /** Accounts are only compared; any totally ordered type would do. */
  type Account = nat

  type Balance = nat

  type RoundIndex = nat

  type BlockNumber = nat

  type Positive = n: nat | 1 <= n witness 1

  /** The account of the staking pallet, which no key controls. */
  const PALLET: Account

  const MAX_TOP: Positive

  const MAX_BOTTOM: Positive

  const MAX_DELEGATIONS: Positive

  const MAX_CANDIDATES: Positive

  const MIN_DELEGATION: Positive

  const MIN_CANDIDATE_STK: Balance

  const LEAVE_CANDIDATES_DELAY: RoundIndex

  const CANDIDATE_BOND_LESS_DELAY: RoundIndex

  const REVOKE_DELEGATION_DELAY: RoundIndex

  /** Rounds between the end of a round and the payment of its rewards. */
  const REWARD_PAYMENT_DELAY: Positive

  /** What one round pays out in all. */
  const ROUND_REWARD: Fitting

  const MIN_BLOCKS_PER_ROUND: nat

  const MAX_GROUP_SIZE: nat

  const MAX_GROUP_NUMBER: nat

  /** The most processors there can be, and the most groups one of them can serve. */
  const MAX_RUNNING_APP: nat

  /** The most applications that can ever be registered. */
  const MAX_REGISTERED_APPS: nat

  /** The largest value of the reward points' type. */
  const MAX_POINTS: nat := 0xFFFF_FFFF

  /** The largest value of the balance type. */
  const MAX_BALANCE: nat

  /** An amount the balance type holds. */
  type Fitting = x: nat | x <= MAX_BALANCE

  function SatAdd(x: nat, y: nat): nat {
    if x + y <= MAX_BALANCE then x + y else MAX_BALANCE
  }

  function SatSub(x: nat, y: nat): nat {
    if y <= x then x - y else 0
  }
}
