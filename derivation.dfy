/** The derived lifecycle state of a proposal (`DaoProposal::state`), as a pure
    function of the stored proposal, the current block height, the configured
    thresholds and the token's total supply, together with what the threshold
    arithmetic amounts to. */
module Derivation {
  import opened Entities

  /** The threshold test that `state` evaluates before anything else. Its
      arithmetic is the contract's: `for_votes + against_votes` is a checked u128
      addition, the quorum rule divides by the total supply BEFORE multiplying by
      100, and the support rule divides by the number of cast votes. A zero
      divisor or an overflow aborts. */
  function ThresholdFailed(p: Proposal, eff: VoteEffective, totalSupply: U128): (r: Result<bool>)
    // only the quorum and support categories can fail a proposal
    ensures r == Ok(true) ==> eff.category == 1 || eff.category == 3
    ensures eff.category != 1 && eff.category != 3 && p.forVotes + p.againstVotes <= U128_MAX ==> r == Ok(false)
    // the cases in which the test aborts
    ensures r == Err(DivisionByZero) <==>
      p.forVotes + p.againstVotes <= U128_MAX &&
      ((eff.category == 1 && totalSupply == 0) || (eff.category == 3 && p.forVotes + p.againstVotes == 0))
    ensures r.Err? ==> r.error == DivisionByZero || r.error == Overflow
  {
    var allVote := p.forVotes + p.againstVotes;
    if allVote > U128_MAX then Err(Overflow)
    else if eff.category == 1 then
      if totalSupply == 0 then Err(DivisionByZero)
      else
        var share := allVote / totalSupply;
        if share * 100 > U128_MAX then Err(Overflow)
        else Ok(share * 100 <= eff.voteScale)
    else if eff.category == 3 then
      if allVote == 0 then Err(DivisionByZero)
      else
        var share := p.forVotes / allVote;
        if share * 100 > U128_MAX then Err(Overflow)
        else Ok(share * 100 <= eff.supportScale)
    else Ok(false)
  }

  /** `state`: the threshold test first, then a first-match-wins chain over the
      flags and the block height. The chain's `Expired` test (`block > end_block`)
      holds whenever it is reached, so the `Publicity`, publicity-override and
      `Queued` branches after it are dead; they are kept as written. */
  function DeriveState(p: Proposal, block: BlockNumber, eff: VoteEffective, totalSupply: U128): (r: Result<ProposalState>)
    // the threshold arithmetic aborts the call whatever the flags and the block
    ensures r.Err? <==> ThresholdFailed(p, eff, totalSupply).Err?
    ensures r.Err? ==> r.error == ThresholdFailed(p, eff, totalSupply).error
    // precedence: canceled first, then the voting window
    ensures r.Ok? ==> (r.value == Canceled <==> p.canceled)
    ensures r.Ok? && !p.canceled ==> (r.value == Pending <==> block <= p.startBlock)
    ensures r.Ok? && !p.canceled ==> (r.value == Active <==> p.startBlock < block <= p.endBlock)
    // past the window: Defeated if the threshold failed, else Executed or Expired
    ensures r.Ok? && !p.canceled && p.startBlock < block && p.endBlock < block ==>
      r.value == (if ThresholdFailed(p, eff, totalSupply).value then Defeated
                  else if p.executed then Executed
                  else Expired)
    // so the enum's later states are never reported
    ensures r.Ok? ==> r.value != Succeeded && r.value != Publicity && r.value != Queued
  {
    match ThresholdFailed(p, eff, totalSupply)
    case Err(e) => Err(e)
    case Ok(failed) =>
      if p.canceled then Ok(Canceled)
      else if block <= p.startBlock then Ok(Pending)
      else if block <= p.endBlock then Ok(Active)
      else if failed then Ok(Defeated)
      else if p.executed then Ok(Executed)
      else if block > p.endBlock then Ok(Expired)
      // dead from here on: `block > end_block` was decided just above
      else if block < p.endBlock + p.publicityDelay then Ok(Publicity)
      else if p.publicityVotes > p.forVotes then Ok(Defeated)
      else Ok(Queued)
  }

  // ---------------------------------------------------------------------------
  // What the truncating threshold arithmetic means
  // ---------------------------------------------------------------------------

  lemma MulMonotonic(x: nat, y: nat, d: nat)
    requires x <= y
    ensures x * d <= y * d
  {
    var k := y - x;
    assert y * d == x * d + k * d;
  }

  /** Truncating division: `a / d <= m` exactly when `a` is below `(m + 1)` whole
      multiples of `d`. */
  lemma {:induction false} DivAtMost(a: nat, d: nat, m: nat)
    requires d > 0
    ensures a / d <= m <==> a < (m + 1) * d
  {
    var q, r := a / d, a % d;
    assert a == q * d + r && r < d;
    assert (q + 1) * d == q * d + d;
    if q <= m {
      MulMonotonic(q + 1, m + 1, d);
    } else {
      MulMonotonic(m + 1, q, d);
    }
  }

  /** `x * 100 <= scale` exactly when `x` is at most the whole hundreds of `scale`. */
  lemma ScaleAtMost(x: nat, scale: nat)
    ensures x * 100 <= scale <==> x <= scale / 100
  {
    var h := scale / 100;
    assert scale == h * 100 + scale % 100;
  }

  /** The arithmetic of the quorum rule on its own. */
  lemma QuorumShare(allVote: nat, totalSupply: nat, voteScale: nat)
    requires totalSupply > 0
    ensures (allVote / totalSupply) * 100 <= voteScale <==> allVote < (voteScale / 100 + 1) * totalSupply
  {
    ScaleAtMost(allVote / totalSupply, voteScale);
    DivAtMost(allVote, totalSupply, voteScale / 100);
  }

  /** The quorum rule (category 1). Because the participation is truncated to a
      whole multiple of the total supply before it is scaled by 100, a proposal
      passes only when at least `vote_scale / 100 + 1` total supplies' worth of
      votes were cast; for any `vote_scale` below 100 that is full participation. */
  lemma QuorumThreshold(p: Proposal, eff: VoteEffective, totalSupply: U128)
    requires eff.category == 1
    requires ThresholdFailed(p, eff, totalSupply).Ok?
    ensures totalSupply > 0
    ensures ThresholdFailed(p, eff, totalSupply).value <==>
      p.forVotes + p.againstVotes < (eff.voteScale / 100 + 1) * totalSupply
    ensures eff.voteScale < 100 ==>
      (ThresholdFailed(p, eff, totalSupply).value <==> p.forVotes + p.againstVotes < totalSupply)
  {
    var allVote := p.forVotes + p.againstVotes;
    var share := allVote / totalSupply;
    assert ThresholdFailed(p, eff, totalSupply) == Ok(share * 100 <= eff.voteScale);
    QuorumShare(allVote, totalSupply, eff.voteScale);
    if eff.voteScale < 100 {
      assert eff.voteScale / 100 == 0;
    }
  }

  /** The arithmetic of the support rule on its own: the share of a part in a
      non-empty whole truncates to 1 when the part is the whole and to 0 otherwise. */
  lemma SupportShare(part: nat, whole: nat)
    requires 0 < whole && part <= whole
    ensures part / whole == if part == whole then 1 else 0
  {
    if part < whole {
      DivAtMost(part, whole, 0);
    } else {
      DivAtMost(whole, whole, 0);
      DivAtMost(whole, whole, 1);
    }
  }

  /** The support rule (category 3). The share `for / (for + against)` truncates
      to 0 or 1, so with `support_scale` below 100 a proposal passes only when no
      vote was cast against it, and with 100 or more it never passes. */
  lemma SupportThreshold(p: Proposal, eff: VoteEffective, totalSupply: U128)
    requires eff.category == 3
    requires ThresholdFailed(p, eff, totalSupply).Ok?
    ensures p.forVotes + p.againstVotes > 0
    ensures ThresholdFailed(p, eff, totalSupply).value <==>
      p.againstVotes > 0 || eff.supportScale >= 100
  {
    var allVote := p.forVotes + p.againstVotes;
    var share := p.forVotes / allVote;
    assert ThresholdFailed(p, eff, totalSupply) == Ok(share * 100 <= eff.supportScale);
    SupportShare(p.forVotes, allVote);
  }

  /** With the configuration the contract is constructed with (category 0) no
      proposal is ever Defeated: once its window has closed it is Executed or
      Expired. */
  lemma DefaultConfigurationNeverDefeats(p: Proposal, block: BlockNumber, totalSupply: U128)
    requires p.forVotes + p.againstVotes <= U128_MAX
    requires !p.canceled && p.startBlock < block && p.endBlock < block
    ensures DeriveState(p, block, DEFAULT_VOTE_EFFECTIVE, totalSupply) ==
      Ok(if p.executed then Executed else Expired)
  {
  }
}
