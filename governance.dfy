/** The `DaoProposal` contract: its stored fields and its entry points.

    Everything the contract obtains from outside is a parameter here: the
    caller's identity and the current block height (from the host), the token's
    total supply and the caller's current votes (from the ERC-20 contract), and
    whether the dispatch of a proposal's action succeeded (from the action
    executor).

    Four entry points of the contract (`cancel`, `exec`, `public_vote`,
    `cast_vote`) modify a CLONE of the stored proposal and never store it back.
    The methods `Cancel`, `Exec`, `PublicVote` and `CastVote` below store the
    updated proposal, which is what those entry points evidently intend; each
    write-back is marked as a deviation. `CancelAsWritten`, `PublicVoteAsWritten`
    and `CastVoteAsWritten` keep the code as it stands, for comparison. */
module Governance {
  import opened Entities
  import opened Derivation

  class DaoProposal {
    /** The account the configuration guard compares the caller with. */
    const creator: AccountId
    /** The account that deployed the contract. */
    const owner: AccountId
    /** The proposal store, keyed by proposal id. */
    var proposals: map<U64, Proposal>
    /** The number of proposals created so far, which is also the last id used. */
    var proposalLength: U64
    var limit: Limit
    var voteEffective: VoteEffective
    /** The `ProposalCreated` events emitted so far. */
    ghost var events: seq<ProposalCreated>

    /** Proposal ids are handed out as 1, 2, 3, ...; every stored proposal
        carries its own id and a voting window that closes after it opens. */
    ghost predicate Valid()
      reads this
    {
      && (forall id: U64 :: id in proposals <==> 1 <= id <= proposalLength)
      && (forall id | id in proposals ::
            proposals[id].proposalId == id && proposals[id].startBlock < proposals[id].endBlock)
    }

    /** `new`: the deploying caller becomes `owner`; no proposals; the default
        limit (no fee) and thresholds (category 0). */
    constructor (creator: AccountId, caller: AccountId)
      ensures Valid()
      ensures this.creator == creator && owner == caller
      ensures proposals == map[] && proposalLength == 0
      ensures limit == DEFAULT_LIMIT && voteEffective == DEFAULT_VOTE_EFFECTIVE
      ensures events == []
    {
      this.creator := creator;
      owner := caller;
      proposals := map[];
      proposalLength := 0;
      limit := DEFAULT_LIMIT;
      voteEffective := DEFAULT_VOTE_EFFECTIVE;
      events := [];
    }

    // -------------------------------------------------------------------------
    // Configuration
    // -------------------------------------------------------------------------

    /** `set_permission`: replaces the whole `Limit`. The guard is kept as
        written: it admits every caller EXCEPT the creator. */
    method SetPermission(caller: AccountId, newLimit: Limit) returns (r: Result<bool>)
      requires Valid()
      modifies this`limit
      ensures Valid()
      ensures r == (if caller != creator then Ok(true) else Err(Unauthorized))
      ensures limit == (if caller != creator then newLimit else old(limit))
    {
      if caller == creator {
        return Err(Unauthorized);
      }
      limit := newLimit;
      r := Ok(true);
    }

    /** `set_vote_effective`: replaces the whole `VoteEffective`, behind the same
        inverted guard as `SetPermission`. */
    method SetVoteEffective(caller: AccountId, newVoteEffective: VoteEffective) returns (r: Result<bool>)
      requires Valid()
      modifies this`voteEffective
      ensures Valid()
      ensures r == (if caller != creator then Ok(true) else Err(Unauthorized))
      ensures voteEffective == (if caller != creator then newVoteEffective else old(voteEffective))
    {
      if caller == creator {
        return Err(Unauthorized);
      }
      voteEffective := newVoteEffective;
      r := Ok(true);
    }

    // -------------------------------------------------------------------------
    // Creation
    // -------------------------------------------------------------------------

    /** `propose`: checks the voting window, issues the creation fee transfer
        when one is configured, and stores a fresh proposal under the next id.
        `fee` is the `transfer_from` call issued to the fee token; its outcome is
        not inspected, so creation does not depend on it. An abort reverts the
        whole call, the fee transfer included. */
    method Propose(
      caller: AccountId,
      block: BlockNumber,
      title: string,
      desc: string,
      category: U32,
      startBlock: BlockNumber,
      endBlock: BlockNumber,
      transaction: Transaction,
      publicityDelay: U32)
      returns (r: Result<bool>, fee: Option<FeeTransfer>)
      requires Valid()
      modifies this`proposals, this`proposalLength, this`events
      ensures Valid()
      ensures r == (if !(block < startBlock && startBlock < endBlock) then Err(InvalidWindow)
                    else if old(proposalLength) == U64_MAX then Err(Overflow)
                    else Ok(true))
      ensures r.Err? ==>
        proposals == old(proposals) && proposalLength == old(proposalLength) &&
        events == old(events) && fee == None
      ensures r.Ok? ==>
        && proposalLength == old(proposalLength) + 1
        && proposalLength !in old(proposals)
        && proposals == old(proposals)[proposalLength :=
             Proposal(proposalLength, title, desc, startBlock, endBlock, 0, 0, caller,
                      false, false, map[], transaction, category, 0, publicityDelay)]
        && events == old(events) + [ProposalCreated(proposalLength, caller)]
        && fee == (if limit.feeOpen
                   then Some(FeeTransfer(caller, DEFAULT_ACCOUNT, limit.feeNumber, limit.feeToken))
                   else None)
    {
      fee := None;
      if !(startBlock > block) || !(endBlock > startBlock) {
        return Err(InvalidWindow), None;
      }
      if limit.feeOpen {
        fee := Some(FeeTransfer(caller, DEFAULT_ACCOUNT, limit.feeNumber, limit.feeToken));
      }
      if proposalLength + 1 > U64_MAX {
        return Err(Overflow), None;
      }
      var proposalId: U64 := proposalLength + 1;
      proposalLength := proposalLength + 1;
      var proposal := Proposal(proposalId, title, desc, startBlock, endBlock, 0, 0, caller,
                               false, false, map[], transaction, category, 0, publicityDelay);
      proposals := proposals[proposalId := proposal];
      events := events + [ProposalCreated(proposalId, caller)];
      r := Ok(true);
    }

    // -------------------------------------------------------------------------
    // Reads
    // -------------------------------------------------------------------------

    /** `state`: looks the proposal up (an unknown id aborts) and derives its
        state under the configured thresholds. */
    function State(id: U64, block: BlockNumber, totalSupply: U128): (r: Result<ProposalState>)
      reads this
      ensures id !in proposals ==> r == Err(NotFound)
      ensures id in proposals ==> r == DeriveState(proposals[id], block, voteEffective, totalSupply)
      ensures r != Ok(Queued) && r != Ok(Publicity)
    {
      if id in proposals then DeriveState(proposals[id], block, voteEffective, totalSupply)
      else Err(NotFound)
    }

    /** `get_proposal_by_id`: a copy of the stored proposal; an unknown id aborts. */
    method GetProposalById(id: U64) returns (r: Result<Proposal>)
      requires Valid()
      ensures r.Ok? <==> 1 <= id <= proposalLength
      ensures r.Err? ==> r.error == NotFound
      ensures r.Ok? ==> r.value == proposals[id] && r.value.proposalId == id
    {
      if id !in proposals {
        return Err(NotFound);
      }
      r := Ok(proposals[id]);
    }

    /** `list_proposals`: every stored proposal, each once, in the store's
        insertion order, which is increasing id. */
    method ListProposals() returns (list: seq<Proposal>)
      requires Valid()
      ensures |list| == proposalLength
      ensures forall i | 0 <= i < |list| :: list[i] == proposals[i + 1]
      ensures forall p | p in list :: p.proposalId in proposals && proposals[p.proposalId] == p
      ensures forall id | id in proposals :: proposals[id] in list
      ensures forall i, j | 0 <= i < j < |list| :: list[i].proposalId < list[j].proposalId
    {
      list := [];
      var next: nat := 1;
      while next <= proposalLength
        invariant 1 <= next <= proposalLength + 1
        invariant |list| == next - 1
        invariant forall i | 0 <= i < |list| :: list[i] == proposals[i + 1]
      {
        list := list + [proposals[next]];
        next := next + 1;
      }
      forall id | id in proposals
        ensures proposals[id] in list
      {
        assert list[id - 1] == proposals[id];
      }
    }

    // -------------------------------------------------------------------------
    // Lifecycle
    // -------------------------------------------------------------------------

    /** `cancel` as written. It checks that the proposal is not Executed and
        that the caller owns it, sets `canceled` on a clone and reports success;
        `Ok(clone)` stands for that successful return with the clone it drops.
        The method has no modifies clause: the store is the same afterwards. */
    method CancelAsWritten(caller: AccountId, id: U64, block: BlockNumber, totalSupply: U128)
      returns (r: Result<Proposal>)
      ensures id !in proposals ==> r == Err(NotFound)
      ensures id in proposals && State(id, block, totalSupply).Err? ==>
        r == Err(State(id, block, totalSupply).error)
      ensures State(id, block, totalSupply) == Ok(Executed) ==> r == Err(AlreadyExecuted)
      ensures r.Ok? <==>
        && State(id, block, totalSupply).Ok?
        && State(id, block, totalSupply).value != Executed
        && proposals[id].owner == caller
      ensures r.Ok? ==> r.value == proposals[id].(canceled := true)
      // success is reported while the stored proposal keeps its state
      ensures r.Ok? && !proposals[id].canceled ==> State(id, block, totalSupply) != Ok(Canceled)
    {
      if id !in proposals {
        return Err(NotFound);
      }
      var proposal := proposals[id];
      var st := State(id, block, totalSupply);
      if st.Err? {
        return Err(st.error);
      }
      if st.value == Executed {
        return Err(AlreadyExecuted);
      }
      if proposal.owner != caller {
        return Err(NotOwner);
      }
      proposal := proposal.(canceled := true);
      r := Ok(proposal);
    }

    /** `cancel`, storing the canceled proposal. Afterwards the proposal is
        reported Canceled at every block height. */
    method Cancel(caller: AccountId, id: U64, block: BlockNumber, totalSupply: U128)
      returns (r: Result<bool>)
      requires Valid()
      modifies this`proposals
      ensures Valid()
      ensures id !in old(proposals) ==> r == Err(NotFound)
      ensures old(State(id, block, totalSupply)) == Ok(Executed) ==> r == Err(AlreadyExecuted)
      ensures r.Ok? <==>
        && old(State(id, block, totalSupply)).Ok?
        && old(State(id, block, totalSupply)).value != Executed
        && old(proposals[id].owner) == caller
      ensures r.Ok? ==> r.value
      ensures r.Err? ==> proposals == old(proposals)
      ensures r.Ok? ==> proposals == old(proposals)[id := old(proposals[id]).(canceled := true)]
      ensures r.Ok? ==>
        forall b: BlockNumber, s: U128 :: State(id, b, s).Ok? ==> State(id, b, s) == Ok(Canceled)
    {
      var checked := CancelAsWritten(caller, id, block, totalSupply);
      match checked {
        case Err(e) =>
          r := Err(e);
        case Ok(canceled) =>
          // Deviation from the code as written: store the canceled proposal.
          proposals := proposals[id := canceled];
          r := Ok(true);
      }
    }

    /** `exec`: requires the proposal to be Queued, dispatches its action (a
        failed dispatch aborts) and marks it executed. Since `state` never
        reports Queued, `exec` never succeeds. */
    method Exec(id: U64, block: BlockNumber, totalSupply: U128, dispatchOk: bool)
      returns (r: Result<bool>)
      requires Valid()
      modifies this`proposals
      ensures Valid()
      ensures id !in old(proposals) ==> r == Err(NotFound)
      ensures r.Ok? ==>
        && id in old(proposals)
        && proposals == old(proposals)[id := old(proposals[id]).(executed := true)]
        && old(State(id, block, totalSupply)) == Ok(Queued) && dispatchOk
      ensures r.Ok? ==> r.value
      ensures r.Err? ==> proposals == old(proposals)
      ensures r.Err?
    {
      if id !in proposals {
        return Err(NotFound);
      }
      var proposal := proposals[id];
      var st := State(id, block, totalSupply);
      // The success path is dead (no proposal is ever Queued), so it is written
      // as expressions: a dead statement would be verified under contradictory facts.
      r := match st
        case Err(e) => Err(e)
        case Ok(s) =>
          if s != Queued then Err(NotQueued)
          // the action executor runs `proposal.transaction` here
          else if !dispatchOk then Err(DispatchFailed)
          else Ok(true);
      // Deviation from the code as written: store the executed proposal.
      proposals := if r.Ok? then proposals[id := proposal.(executed := true)] else proposals;
    }

    // -------------------------------------------------------------------------
    // Voting
    // -------------------------------------------------------------------------

    /** `public_vote` as written: inside the publicity window (strictly after
        `end_block`, strictly before `end_block + publicity_delay`, a u32 sum that
        aborts on overflow) it sets `publicity_votes` of a clone to the caller's
        current votes, replacing the previous value. The derived state is not
        consulted. `Ok(clone)` stands for the successful return with the clone it
        drops; the method has no modifies clause. */
    method PublicVoteAsWritten(id: U64, block: BlockNumber, weight: U128)
      returns (r: Result<Proposal>)
      ensures id !in proposals ==> r == Err(NotFound)
      ensures id in proposals ==>
        (r.Ok? <==>
          proposals[id].endBlock < block &&
          proposals[id].endBlock + proposals[id].publicityDelay <= U32_MAX &&
          block < proposals[id].endBlock + proposals[id].publicityDelay)
      ensures (id in proposals && proposals[id].endBlock < block &&
               proposals[id].endBlock + proposals[id].publicityDelay > U32_MAX) ==> r == Err(Overflow)
      ensures id in proposals && r.Err? && r.error != Overflow ==> r.error == NotInPublicityWindow
      ensures r.Ok? ==> r.value == proposals[id].(publicityVotes := weight)
    {
      if id !in proposals {
        return Err(NotFound);
      }
      var proposal := proposals[id];
      if !(proposal.endBlock < block) {
        return Err(NotInPublicityWindow);
      }
      if proposal.endBlock + proposal.publicityDelay > U32_MAX {
        return Err(Overflow);
      }
      if !(proposal.endBlock + proposal.publicityDelay > block) {
        return Err(NotInPublicityWindow);
      }
      proposal := proposal.(publicityVotes := weight);
      r := Ok(proposal);
    }

    /** `public_vote`, storing the updated proposal. `weight` is the caller's
        current votes. */
    method PublicVote(id: U64, block: BlockNumber, weight: U128) returns (r: Result<bool>)
      requires Valid()
      modifies this`proposals
      ensures Valid()
      ensures id !in old(proposals) ==> r == Err(NotFound)
      ensures id in old(proposals) ==>
        (r.Ok? <==>
          old(proposals[id].endBlock) < block &&
          old(proposals[id].endBlock + proposals[id].publicityDelay) <= U32_MAX &&
          block < old(proposals[id].endBlock + proposals[id].publicityDelay))
      ensures r.Ok? ==> r.value
      ensures r.Err? ==> proposals == old(proposals)
      ensures r.Ok? ==> proposals == old(proposals)[id := old(proposals[id]).(publicityVotes := weight)]
    {
      var checked := PublicVoteAsWritten(id, block, weight);
      match checked {
        case Err(e) =>
          r := Err(e);
        case Ok(voted) =>
          // Deviation from the code as written: store the updated proposal.
          proposals := proposals[id := voted];
          r := Ok(true);
      }
    }

    /** `cast_vote` as written: requires the Active state, then unwraps the
        caller's receipt, so a member without a receipt (every member, since no
        code stores one) aborts; otherwise it adds the caller's votes to one
        tally of a clone and updates a clone of the receipt, both dropped.
        `Ok(clone)` stands for the successful return with the proposal clone. */
    method CastVoteAsWritten(caller: AccountId, id: U64, support: bool, block: BlockNumber,
                             totalSupply: U128, weight: U128)
      returns (r: Result<Proposal>)
      ensures id !in proposals ==> r == Err(NotFound)
      ensures (id in proposals && State(id, block, totalSupply).Ok? &&
               State(id, block, totalSupply).value != Active) ==> r == Err(VotingClosed)
      // a member's first vote always aborts
      ensures id in proposals && caller !in proposals[id].receipts ==> r.Err?
      ensures (State(id, block, totalSupply) == Ok(Active) && caller !in proposals[id].receipts) ==>
        r == Err(MissingReceipt)
      ensures r.Ok? <==>
        && State(id, block, totalSupply) == Ok(Active)
        && caller in proposals[id].receipts
        && !proposals[id].receipts[caller].hasVoted
        && (if support then proposals[id].forVotes else proposals[id].againstVotes) + weight <= U128_MAX
      ensures r.Ok? ==>
        r.value == if support then proposals[id].(forVotes := proposals[id].forVotes + weight)
                   else proposals[id].(againstVotes := proposals[id].againstVotes + weight)
    {
      var st := State(id, block, totalSupply);
      if st.Err? {
        return Err(st.error);
      }
      if st.value != Active {
        return Err(VotingClosed);
      }
      var proposal := proposals[id];
      if caller !in proposal.receipts {
        return Err(MissingReceipt);
      }
      var receipt := proposal.receipts[caller];
      if receipt.hasVoted {
        return Err(AlreadyVoted);
      }
      if support {
        if proposal.forVotes + weight > U128_MAX {
          return Err(Overflow);
        }
        proposal := proposal.(forVotes := proposal.forVotes + weight);
      } else {
        if proposal.againstVotes + weight > U128_MAX {
          return Err(Overflow);
        }
        proposal := proposal.(againstVotes := proposal.againstVotes + weight);
      }
      receipt := Receipt(true, support, weight);
      r := Ok(proposal);
    }

    /** `cast_vote`, reading an absent receipt as "not voted yet" and storing the
        updated tallies and receipt. `weight` is the caller's current votes. A
        member whose receipt records a vote is rejected, so each member votes at
        most once per proposal. */
    method CastVote(caller: AccountId, id: U64, support: bool, block: BlockNumber,
                    totalSupply: U128, weight: U128)
      returns (r: Result<bool>)
      requires Valid()
      modifies this`proposals
      ensures Valid()
      ensures id !in old(proposals) ==> r == Err(NotFound)
      ensures old(State(id, block, totalSupply)).Err? ==> r == Err(old(State(id, block, totalSupply)).error)
      ensures (old(State(id, block, totalSupply)).Ok? &&
               old(State(id, block, totalSupply)).value != Active) ==> r == Err(VotingClosed)
      ensures (old(State(id, block, totalSupply)) == Ok(Active) &&
               old(HasVoted(proposals[id], caller))) ==> r == Err(AlreadyVoted)
      ensures r.Ok? <==>
        && old(State(id, block, totalSupply)) == Ok(Active)
        && !old(HasVoted(proposals[id], caller))
        && old(if support then proposals[id].forVotes else proposals[id].againstVotes) + weight <= U128_MAX
      ensures r.Ok? ==> r.value
      ensures r.Err? ==> proposals == old(proposals)
      ensures r.Ok? ==>
        && id in old(proposals)
        && proposals == old(proposals)[id := proposals[id]]
        && proposals[id].forVotes == old(proposals[id].forVotes) + (if support then weight else 0)
        && proposals[id].againstVotes == old(proposals[id].againstVotes) + (if support then 0 else weight)
        && proposals[id].receipts == old(proposals[id].receipts)[caller := Receipt(true, support, weight)]
        && proposals[id] == old(proposals[id]).(forVotes := proposals[id].forVotes,
                                                 againstVotes := proposals[id].againstVotes,
                                                 receipts := proposals[id].receipts)
        && HasVoted(proposals[id], caller)
    {
      var st := State(id, block, totalSupply);
      if st.Err? {
        return Err(st.error);
      }
      if st.value != Active {
        return Err(VotingClosed);
      }
      var proposal := proposals[id];
      // Deviation from the code as written: an absent receipt means "not voted".
      if HasVoted(proposal, caller) {
        return Err(AlreadyVoted);
      }
      if support {
        if proposal.forVotes + weight > U128_MAX {
          return Err(Overflow);
        }
        proposal := proposal.(forVotes := proposal.forVotes + weight);
      } else {
        if proposal.againstVotes + weight > U128_MAX {
          return Err(Overflow);
        }
        proposal := proposal.(againstVotes := proposal.againstVotes + weight);
      }
      proposal := proposal.(receipts := proposal.receipts[caller := Receipt(true, support, weight)]);
      // Deviation from the code as written: store the updated proposal.
      proposals := proposals[id := proposal];
      r := Ok(true);
    }
  }
}
