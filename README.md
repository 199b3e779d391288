# DAO proposal governance in Dafny

This project models the `DaoProposal` contract of the RainbowDAO factory
(`Near-version-contract-for-Nearnetwork/dao_proposal/lib.rs`). The contract is a
proposal-governance engine. Members create proposals with a voting window. They
vote on them with their token weight. A proposal's lifecycle state is derived
from its flags, the block height and its vote tallies. An owner-gated
configuration sets the creation fee (`Limit`) and the vote thresholds
(`VoteEffective`).

Files:

- `entities.dfy` (module `Entities`): the records (`Receipt`, `Proposal`,
  `Limit`, `VoteEffective`, `Transaction`, `ProposalState`), the u32/u64/u128
  widths as subset types, and `Error`/`Result` for the contract's panics. A
  panic reverts the whole call, so every `Err` leaves the state unchanged.
- `derivation.dfy` (module `Derivation`): `state` as a pure function, with
  lemmas on what its truncating threshold arithmetic means. Because `state` is
  a function, it changes nothing and equal inputs give equal results.
- `governance.dfy` (module `Governance`): the contract as a class.
  - Fields: the proposal map, `proposal_length`, `limit`, `vote_effective`, and a
    ghost log of `ProposalCreated` events.
  - One method per entry point.
- `scenarios.dfy` (module `Scenarios`): the contract's own unit test, one
  proposal's lifecycle, and the inputs behind the findings below.

Inputs from outside the contract are parameters: the caller, the block height,
the token's total supply, the caller's current votes (`weight`), and whether
the dispatch of the proposal's action succeeded.

Arithmetic follows Rust with overflow checks on. An overflowing u32/u64/u128
`+` or `*` aborts with `Overflow`. A division by zero aborts with
`DivisionByZero`.

### Behaviour kept as the code has it

The model follows the code in these points:

- `state` computes the threshold test before its precedence chain. A zero
  divisor therefore aborts `state` even for canceled or pending proposals; it
  is not read as "failed".
- The quorum test is `all_vote / total_supply * 100 <= vote_scale`: it divides
  before it scales. `QuorumThreshold` shows what follows: with `vote_scale`
  below 100, a proposal passes only with full participation. The support test
  truncates the same way (`SupportThreshold`).
- Past `end_block`, `state` returns Defeated when the threshold failed and
  Executed when `executed` is set. Otherwise it reaches the `Expired` test
  (`block > end_block`), and that test holds whenever it is reached. So
  `Publicity`, the publicity override and `Queued` are never returned, and
  `exec` can never succeed (`Derivation.DeriveState`, `Governance.DaoProposal.Exec`).
- The configuration guard is `caller != creator`. Every account except the
  creator may replace `Limit` and `VoteEffective`.
- `propose` ignores the result of the fee transfer. A proposal is created
  whether or not the fee was paid.
- `public_vote` does not look at the derived state, so canceled proposals also
  accept it. It replaces `publicity_votes` with the caller's weight; it does not
  add to it.

### Deviations from the code

`cancel`, `exec`, `public_vote` and `cast_vote` mutate a clone of the stored
proposal and never store it back. The methods `Cancel`, `Exec`, `PublicVote`
and `CastVote` store the updated proposal, which is the evident intent. Each
write-back is marked by a comment. `CastVote` also reads an absent receipt as
"not voted yet"; the code unwraps it. The code as written is kept beside them
(`CancelAsWritten`, `PublicVoteAsWritten`, `CastVoteAsWritten`). Those methods
have no `modifies` clause, and `## Findings` compares the two versions.

## Model

| member | source | states |
|---|---|---|
| `Derivation.ThresholdFailed` | Near-version-contract-for-Nearnetwork/dao_proposal/lib.rs:286-298 | only categories 1 and 3 can set `failed`; any other category gives "not failed" unless `for + against` overflows; it aborts with DivisionByZero exactly when the total supply (category 1) or the number of votes cast (category 3) is zero; Overflow is the only other abort |
| `Derivation.DeriveState` | Near-version-contract-for-Nearnetwork/dao_proposal/lib.rs:282-308 | aborts exactly when the threshold test aborts, whatever the flags and block; Canceled iff `canceled`; otherwise Pending iff `block <= start_block` and Active iff `start_block < block <= end_block`; past the window Defeated if failed, else Executed if executed, else Expired; never Succeeded, Publicity or Queued |
| `Derivation.QuorumThreshold` | Near-version-contract-for-Nearnetwork/dao_proposal/lib.rs:289-293 | category 1 fails iff `for + against < (vote_scale / 100 + 1) * total_supply`; for `vote_scale < 100` it fails iff participation is below the whole total supply |
| `Derivation.SupportThreshold` | Near-version-contract-for-Nearnetwork/dao_proposal/lib.rs:294-297 | category 3 fails iff some vote was cast against, or `support_scale >= 100` |
| `Derivation.DefaultConfigurationNeverDefeats` | Near-version-contract-for-Nearnetwork/dao_proposal/lib.rs:198-203 | with the constructor's thresholds (category 0), a non-canceled proposal past its window whose `for_votes + against_votes` fits in u128 is Executed or Expired, never Defeated |
| `Governance.DaoProposal.constructor` | Near-version-contract-for-Nearnetwork/dao_proposal/lib.rs:184-205 | no proposals, `proposal_length` 0, the caller as owner, no fee and category-0 thresholds |
| `Governance.DaoProposal.SetPermission` | Near-version-contract-for-Nearnetwork/dao_proposal/lib.rs:209-214 | rejects the creator; for every other caller it replaces the whole `Limit`; nothing else changes |
| `Governance.DaoProposal.SetVoteEffective` | Near-version-contract-for-Nearnetwork/dao_proposal/lib.rs:217-221 | rejects the creator; for every other caller it replaces the whole `VoteEffective`; nothing else changes |
| `Governance.DaoProposal.Propose` | Near-version-contract-for-Nearnetwork/dao_proposal/lib.rs:234-278 | fails with nothing changed unless `block < start_block < end_block`; on success the new id is `proposal_length + 1`, which was unused; `proposal_length` grows by one; the stored proposal has zero tallies, no flags, no receipts and the caller as owner; no other proposal changes; one `ProposalCreated` event; the fee transfer is issued exactly when a fee is configured |
| `Governance.DaoProposal.State` | Near-version-contract-for-Nearnetwork/dao_proposal/lib.rs:282-285 | an unknown id aborts with NotFound; otherwise the stored proposal's derived state under the configured thresholds, never Queued or Publicity |
| `Governance.DaoProposal.GetProposalById` | Near-version-contract-for-Nearnetwork/dao_proposal/lib.rs:392-395 | succeeds exactly for ids `1..proposal_length`; returns the stored proposal, which carries that id |
| `Governance.DaoProposal.ListProposals` | Near-version-contract-for-Nearnetwork/dao_proposal/lib.rs:380-389 | returns exactly the stored proposals, each once: one per id, by increasing id; every listed proposal is stored, and every stored one is listed |
| `Governance.DaoProposal.CancelAsWritten` | Near-version-contract-for-Nearnetwork/dao_proposal/lib.rs:312-318 | aborts on an unknown id, a state abort, an Executed proposal or a caller other than the owner; otherwise reports success, having canceled only a copy; the store is unchanged |
| `Governance.DaoProposal.Cancel` | Near-version-contract-for-Nearnetwork/dao_proposal/lib.rs:312-318 | the same guard; on success it stores the proposal with `canceled` set and changes nothing else; afterwards the proposal is Canceled at every block height and total supply for which `state` does not abort (the threshold test can still abort with DivisionByZero or Overflow) |
| `Governance.DaoProposal.Exec` | Near-version-contract-for-Nearnetwork/dao_proposal/lib.rs:322-340 | succeeds only from Queued with a successful dispatch, storing `executed`; since nothing is ever Queued, it always fails and changes nothing |
| `Governance.DaoProposal.PublicVoteAsWritten` | Near-version-contract-for-Nearnetwork/dao_proposal/lib.rs:344-354 | succeeds iff `end_block < block < end_block + publicity_delay` and that sum fits in u32 (an overflowing sum aborts); only a copy has `publicity_votes` replaced by the caller's weight; the store is unchanged |
| `Governance.DaoProposal.PublicVote` | Near-version-contract-for-Nearnetwork/dao_proposal/lib.rs:344-354 | the same window; on success it stores the proposal with `publicity_votes` replaced by the caller's weight, not added to it; nothing else changes |
| `Governance.DaoProposal.CastVoteAsWritten` | Near-version-contract-for-Nearnetwork/dao_proposal/lib.rs:359-377 | rejects unless Active; a caller without a receipt aborts with MissingReceipt, so a member's first vote always aborts; otherwise only a copy gets the weight added to one tally |
| `Governance.DaoProposal.CastVote` | Near-version-contract-for-Nearnetwork/dao_proposal/lib.rs:359-377 | rejects unless the state is Active, and rejects a member whose receipt records a vote; an overflowing tally aborts; on success it adds the weight to `for_votes` if `support`, else to `against_votes`; the other tally is unchanged; it records the receipt `{has_voted: true, support, votes: weight}`; no other proposal changes |
| `Scenarios.InitWorks` | Near-version-contract-for-Nearnetwork/dao_proposal/lib.rs:407-429 | the unit test: the first proposal gets id 1 and reads back with title "test" |
| `Scenarios.Lifecycle` | Near-version-contract-for-Nearnetwork/dao_proposal/lib.rs:299-307 | window 10..20, delay 5, default thresholds: Pending at block 5, Active at 15, Expired at 25 and at 30 (never Publicity or Queued) |
| `Scenarios.CancelAsWrittenIsLost` | Near-version-contract-for-Nearnetwork/dao_proposal/lib.rs:312-318 | the owner's cancel of a Pending proposal reports success, yet the proposal stays Pending |
| `Scenarios.PublicVoteAsWrittenIsLost` | Near-version-contract-for-Nearnetwork/dao_proposal/lib.rs:344-354 | a public vote of weight 9 at block `end_block + 1` with delay 5 reports success, yet the stored `publicity_votes` stays 0 |
| `Scenarios.CastVoteAsWrittenAborts` | Near-version-contract-for-Nearnetwork/dao_proposal/lib.rs:362-364 | a first vote on an Active proposal aborts with MissingReceipt |
| `Scenarios.SecondVoteRejected` | Near-version-contract-for-Nearnetwork/dao_proposal/lib.rs:361-374 | with the write-back, the first vote counts (tally 7); the same member's second vote is rejected with AlreadyVoted and the tally stays 7 |

## Left out

- The ERC-20 token contract is not part of this model. Its total supply and
  the caller's current votes are parameters. The fee payment is the
  `FeeTransfer` value `Propose` returns. A call into the token that traps is
  not modelled.
- The action dispatch in `exec` and the `CallInput` encoder are not modelled.
  The dispatch outcome is a boolean parameter, and a `Transaction` is an
  opaque value.
- Event emission is a ghost log of `ProposalCreated` values.
- `voting_delay`, `voting_period` and `erc20_addr` are not modelled. The
  constructor sets them and no logic reads them.
- The contents of `title` and `desc` are opaque strings.
- Storage-layout and codec derives are not modelled.
- Governance.DaoProposal.ListProposals: lists by increasing id, standing in for
  the store's own iteration order, which is insertion order here because ids
  are inserted in increasing order and never removed.
- Derivation.DeriveState: the dead test `block < end_block + publicity_delay`
  is evaluated on unbounded integers. Its u32 overflow could never be reached.
- Overflow checks are assumed on. With wrap-around arithmetic, the model's
  `Overflow` aborts would wrap instead.

## Findings

| source | as written | input that shows it | evidently intended | confidence | as-written member | corrected member |
|---|---|---|---|---|---|---|
| Near-version-contract-for-Nearnetwork/dao_proposal/lib.rs:312-318 | `cancel` sets `canceled` on a clone, takes `&self` and stores nothing | the owner cancels proposal 1 (window 10..20) at block 5: the call returns true and the state is still Pending | store the canceled proposal so that it is Canceled from then on | high, not executed | `Governance.DaoProposal.CancelAsWritten` | `Governance.DaoProposal.Cancel` |
| Near-version-contract-for-Nearnetwork/dao_proposal/lib.rs:344-354 | `public_vote` sets `publicity_votes` on a clone and stores nothing | proposal 1 (window 10..20, `publicity_delay` 5), a vote of weight 9 at block 21 returns true; the stored `publicity_votes` stays 0 | store the proposal with the new `publicity_votes` | high, not executed | `Governance.DaoProposal.PublicVoteAsWritten` | `Governance.DaoProposal.PublicVote` |
| Near-version-contract-for-Nearnetwork/dao_proposal/lib.rs:359-377 | `cast_vote` unwraps the caller's receipt, which no code ever stores, and adds the weight to a clone | proposal 1 (window 10..20), block 15, any caller: the call aborts on the missing receipt | read an absent receipt as "not voted", then store the tallies and the receipt | high, not executed | `Governance.DaoProposal.CastVoteAsWritten` | `Governance.DaoProposal.CastVote` |
