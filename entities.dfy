/** The records of the DAO proposal contract, the fixed-width integers they are
    stored in, and the ways an entry point can abort.

    Every entry point of the contract either returns normally or panics; a panic
    reverts the whole call, so the model returns `Err(reason)` and leaves the
    contract's state as it was. */
module Entities {

  // ---------------------------------------------------------------------------
  // Fixed-width unsigned integers (Rust u32, u64, u128)
  // ---------------------------------------------------------------------------

  const U32_MAX: nat := 0xFFFF_FFFF
  const U64_MAX: nat := 0xFFFF_FFFF_FFFF_FFFF
  const U128_MAX: nat := 0xFFFF_FFFF_FFFF_FFFF_FFFF_FFFF_FFFF_FFFF

  type U32 = n: nat | n <= U32_MAX
  type U64 = n: nat | n <= U64_MAX
  type U128 = n: nat | n <= U128_MAX

  /** Block heights are u32 in the contract. */
  type BlockNumber = U32

  /** Account identities are opaque; the number 0 stands for `AccountId::default()`. */
  type AccountId = nat

  const DEFAULT_ACCOUNT: AccountId := 0

  // ---------------------------------------------------------------------------
  // Records
  // ---------------------------------------------------------------------------

  /** One member's vote on one proposal. */
  datatype Receipt = Receipt(hasVoted: bool, support: bool, votes: U128)

  /** The deferred call a proposal carries. Its contents are never inspected by
      the contract's own logic: only the action executor reads them. */
  datatype Transaction = Transaction(
    callee: AccountId,
    selector: seq<bv8>,
    input: seq<bv8>,
    transferredValue: U128,
    gasLimit: U64)

  datatype Proposal = Proposal(
    proposalId: U64,
    title: string,
    desc: string,
    startBlock: BlockNumber,
    endBlock: BlockNumber,
    forVotes: U128,
    againstVotes: U128,
    owner: AccountId,
    canceled: bool,
    executed: bool,
    receipts: map<AccountId, Receipt>,
    transaction: Transaction,
    category: U32,
    publicityVotes: U128,
    publicityDelay: U32)

  /** Restrictions on creating proposals: whether a fee is charged, how much,
      and in which token. */
  datatype Limit = Limit(feeOpen: bool, feeNumber: U128, feeToken: AccountId)

  /** Vote thresholds: `category` selects the rule (1 = participation against
      total supply, 3 = support among cast votes, anything else = no rule). */
  datatype VoteEffective = VoteEffective(
    category: U32,
    voteScale: U128,
    entrustScale: U128,
    supportScale: U128)

  /** The lifecycle states a proposal can be reported in. */
  datatype ProposalState =
    | Canceled
    | Pending
    | Active
    | Defeated
    | Succeeded
    | Executed
    | Expired
    | Publicity
    | Queued

  /** The `ProposalCreated` event emitted by a successful `propose`. */
  datatype ProposalCreated = ProposalCreated(proposalId: U64, creator: AccountId)

  /** The token transfer `propose` issues when a creation fee is configured. */
  datatype FeeTransfer = FeeTransfer(from: AccountId, to: AccountId, amount: U128, token: AccountId)

  /** The configuration a freshly constructed contract starts with. */
  const DEFAULT_LIMIT: Limit := Limit(false, 1, DEFAULT_ACCOUNT)
  const DEFAULT_VOTE_EFFECTIVE: VoteEffective := VoteEffective(0, 0, 0, 0)

  /** Whether `who` has a receipt on `p` that records a vote. */
  predicate HasVoted(p: Proposal, who: AccountId) {
    who in p.receipts && p.receipts[who].hasVoted
  }

  // ---------------------------------------------------------------------------
  // Aborts
  // ---------------------------------------------------------------------------

  /** Why a call panicked. Each constructor names one `assert!`, `unwrap` or
      checked arithmetic operation of the contract. */
  datatype Error =
    | NotFound              // `proposals.get(&id).unwrap()` on an unknown id
    | Unauthorized          // the configuration guard
    | InvalidWindow         // `propose`'s block-window asserts
    | NotOwner              // `cancel` by someone other than the proposal's owner
    | AlreadyExecuted       // `cancel` of an Executed proposal
    | NotQueued             // `exec` of a proposal that is not Queued
    | VotingClosed          // `cast_vote` outside the Active state
    | AlreadyVoted          // `cast_vote` by a member whose receipt records a vote
    | MissingReceipt        // `receipts.get(&caller).unwrap()` as written
    | NotInPublicityWindow  // `public_vote` outside its window
    | DivisionByZero        // integer division by zero
    | Overflow              // checked addition or multiplication overflow
    | DispatchFailed        // the action executor's call failed

  datatype Result<T> = Ok(value: T) | Err(error: Error)

  datatype Option<T> = None | Some(value: T)
}
