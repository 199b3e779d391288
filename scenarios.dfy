/** Concrete runs of the contract: its own unit test, the lifecycle of one
    proposal along the block axis, and the inputs that show where the code as
    written departs from its evident intent. */
module Scenarios {
  import opened Entities
  import opened Derivation
  import opened Governance

  /** The account `[0x01; 32]`: the test's creator, and also its default caller. */
  const ALICE: AccountId := 1

  const SAMPLE_ACTION: Transaction := Transaction(ALICE, [1, 2, 3, 4], [1], 0, 1000000)

  /** The contract's unit test `init_works`: at block 0, a proposal with window
      4..5 gets id 1 and can be read back with its title. */
  method InitWorks() returns (title: string)
    ensures title == "test"
  {
    var dao := new DaoProposal(ALICE, ALICE);
    var created, _ := dao.Propose(ALICE, 0, "test", "test", 3, 4, 5, SAMPLE_ACTION, 1);
    assert created == Ok(true) && dao.proposalLength == 1;
    var proposal := dao.GetProposalById(1);
    title := proposal.value.title;
  }

  /** One proposal with window 10..20 and publicity delay 5, under the default
      thresholds, queried at blocks 5, 15, 25 and 30: Pending, Active, and then
      Expired for good, never Publicity or Queued. */
  method Lifecycle() returns (states: seq<Result<ProposalState>>)
    ensures states == [Ok(Pending), Ok(Active), Ok(Expired), Ok(Expired)]
  {
    var dao := new DaoProposal(ALICE, ALICE);
    var created, _ := dao.Propose(ALICE, 0, "upgrade", "", 0, 10, 20, SAMPLE_ACTION, 5);
    assert created == Ok(true) && 1 in dao.proposals;
    states := [dao.State(1, 5, 100), dao.State(1, 15, 100), dao.State(1, 25, 100), dao.State(1, 30, 100)];
  }

  /** The owner cancels a Pending proposal: as written the call succeeds and
      the proposal is still Pending afterwards. */
  method CancelAsWrittenIsLost() returns (reported: Result<Proposal>, after: Result<ProposalState>)
    ensures reported.Ok? && after == Ok(Pending)
  {
    var dao := new DaoProposal(ALICE, ALICE);
    var created, _ := dao.Propose(ALICE, 0, "upgrade", "", 0, 10, 20, SAMPLE_ACTION, 5);
    assert created == Ok(true) && 1 in dao.proposals;
    reported := dao.CancelAsWritten(ALICE, 1, 5, 100);
    after := dao.State(1, 5, 100);
  }

  /** A public vote of weight 9 at block 21, inside the publicity window 20..25:
      as written the call succeeds and the stored `publicity_votes` stays 0. */
  method PublicVoteAsWrittenIsLost() returns (reported: Result<Proposal>, stored: U128)
    ensures reported.Ok? && reported.value.publicityVotes == 9 && stored == 0
  {
    var dao := new DaoProposal(ALICE, ALICE);
    var created, _ := dao.Propose(ALICE, 0, "upgrade", "", 0, 10, 20, SAMPLE_ACTION, 5);
    assert created == Ok(true) && 1 in dao.proposals;
    reported := dao.PublicVoteAsWritten(1, 21, 9);
    stored := dao.proposals[1].publicityVotes;
  }

  /** As written, the first vote of a member on an Active proposal aborts on the
      missing receipt. */
  method CastVoteAsWrittenAborts() returns (r: Result<Proposal>)
    ensures r == Err(MissingReceipt)
  {
    var dao := new DaoProposal(ALICE, ALICE);
    var created, _ := dao.Propose(ALICE, 0, "upgrade", "", 0, 10, 20, SAMPLE_ACTION, 5);
    assert created == Ok(true) && 1 in dao.proposals;
    r := dao.CastVoteAsWritten(ALICE, 1, true, 15, 100, 7);
  }

  /** With the write-back, a member's first vote counts and a second one is
      rejected, leaving the tallies as they were. */
  method SecondVoteRejected() returns (first: Result<bool>, second: Result<bool>, forVotes: U128)
    ensures first == Ok(true) && second == Err(AlreadyVoted) && forVotes == 7
  {
    var dao := new DaoProposal(ALICE, ALICE);
    var created, _ := dao.Propose(ALICE, 0, "upgrade", "", 0, 10, 20, SAMPLE_ACTION, 5);
    assert created == Ok(true) && 1 in dao.proposals;
    first := dao.CastVote(ALICE, 1, true, 15, 100, 7);
    second := dao.CastVote(ALICE, 1, false, 16, 100, 7);
    forVotes := dao.proposals[1].forVotes;
  }
}
