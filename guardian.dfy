/** The guardian program: a 2-of-3 multisig over proposals that can be
    approved only once a 48-hour timelock has passed, and that any single
    signer can reject at any time. */
module Guardian {
  import opened Solana

  /** `48 * 3600`: seconds between submission and the earliest approval. */
  const TimelockDelay: int := 48 * 3600

  /** Number of recorded approvals that makes a proposal Approved. */
  const ApprovalThreshold: nat := 2

  datatype ProposalType = PartnershipApproval | TreasuryWithdrawal | ParameterChange | EmergencyAction

  datatype ProposalStatus = Pending | Approved | Rejected | Executed

  datatype GovernanceError =
    | InvalidProposal
    | ProposalNotPending
    | InvalidSigner
    | AlreadyApproved
    | TimelockedProposal
    | NoProposals

  datatype Event =
    | ProposalSubmitted(proposalId: u64, proposer: Pubkey, timestamp: i64)
    | ProposalApproved(proposalId: u64, approvers: seq<Pubkey>, timestamp: i64)
    | ProposalRejected(proposalId: u64, timestamp: i64)
    | RewardsDistributed(amount: u64, timestamp: i64)

  /** The three keys of a governance account. Nothing makes them distinct. */
  datatype SignerSet = SignerSet(signer1: Pubkey, signer2: Pubkey, signer3: Pubkey) {
    predicate Contains(k: Pubkey) {
      k == signer1 || k == signer2 || k == signer3
    }
  }

  /** The fields of a proposal account, as a value. */
  datatype ProposalRecord = ProposalRecord(
    id: u64,
    proposer: Pubkey,
    title: string,
    description: string,
    proposalType: ProposalType,
    createdAt: i64,
    timelockUntil: i64,
    status: ProposalStatus,
    approvedBy: seq<Pubkey>,
    rejected: bool)

  predicate NoDuplicates(s: seq<Pubkey>) {
    forall i, j :: 0 <= i < j < |s| ==> s[i] != s[j]
  }

  /** What holds of every proposal this program writes, whatever governance
      accounts its approvals and rejections were checked against. */
  ghost predicate WellShaped(p: ProposalRecord) {
    && p.timelockUntil == p.createdAt + TimelockDelay
    && NoDuplicates(p.approvedBy)
    && |p.approvedBy| <= ApprovalThreshold
    && (p.status == Pending ==> |p.approvedBy| < ApprovalThreshold)
    && (p.status == Approved ==> |p.approvedBy| == ApprovalThreshold)
    && (p.rejected <==> p.status == Rejected)
    && p.status != Executed
  }

  /** Every recorded approval is one of the given keys. */
  ghost predicate MembersOnly(signers: SignerSet, p: ProposalRecord) {
    forall k :: k in p.approvedBy ==> signers.Contains(k)
  }

  /** A well-shaped proposal whose approvals all come from `signers`. */
  ghost predicate WellFormed(signers: SignerSet, p: ProposalRecord) {
    WellShaped(p) && MembersOnly(signers, p)
  }

  /** The proposal `submit_proposal` writes, given the current counter. */
  function NewProposal(count: u64, proposer: Pubkey, title: string, description: string,
                       proposalType: ProposalType, now: i64): (p: ProposalRecord)
    requires now + TimelockDelay <= I64Max
    ensures p.id == count && p.proposer == proposer && p.createdAt == now
    ensures p.title == title && p.description == description && p.proposalType == proposalType
    ensures p.status == Pending && p.approvedBy == [] && !p.rejected
    ensures forall signers :: WellFormed(signers, p)
  {
    ProposalRecord(count, proposer, title, description, proposalType,
                   now, now + TimelockDelay, Pending, [], false)
  }

  /** `approve_proposal`: five guards in source order, then the signer is
      appended and the threshold decides the status. */
  function ApproveStep(signers: SignerSet, p: ProposalRecord, signer: Pubkey,
                       proposalId: u64, now: i64): (r: Result<ProposalRecord, GovernanceError>)
    ensures p.id != proposalId ==> r == Failure(InvalidProposal)
    ensures p.id == proposalId && p.status != Pending ==> r == Failure(ProposalNotPending)
    ensures (p.id == proposalId && p.status == Pending && !signers.Contains(signer))
              ==> r == Failure(InvalidSigner)
    ensures (p.id == proposalId && p.status == Pending && signers.Contains(signer)
             && signer in p.approvedBy) ==> r == Failure(AlreadyApproved)
    ensures (p.id == proposalId && p.status == Pending && signers.Contains(signer)
             && signer !in p.approvedBy && now < p.timelockUntil) ==> r == Failure(TimelockedProposal)
    ensures r.Success? <==> p.id == proposalId && p.status == Pending && signers.Contains(signer)
                            && signer !in p.approvedBy && p.timelockUntil <= now
    ensures r.Success? ==> r.value.approvedBy == p.approvedBy + [signer]
    ensures r.Success? ==> (r.value.status == Approved <==> |r.value.approvedBy| >= ApprovalThreshold)
    ensures r.Success? ==> r.value.status in {Pending, Approved}
    ensures r.Success? ==> r.value.(approvedBy := p.approvedBy, status := p.status) == p
  {
    if p.id != proposalId then Failure(InvalidProposal)
    else if p.status != Pending then Failure(ProposalNotPending)
    else if !signers.Contains(signer) then Failure(InvalidSigner)
    else if signer in p.approvedBy then Failure(AlreadyApproved)
    else if now < p.timelockUntil then Failure(TimelockedProposal)
    else
      var approvals := p.approvedBy + [signer];
      Success(p.(approvedBy := approvals,
                 status := if |approvals| >= ApprovalThreshold then Approved else Pending))
  }

  /** `reject_proposal`: the id, status and signer guards only; no timelock
      and no duplicate check. */
  function RejectStep(signers: SignerSet, p: ProposalRecord, signer: Pubkey,
                      proposalId: u64): (r: Result<ProposalRecord, GovernanceError>)
    ensures p.id != proposalId ==> r == Failure(InvalidProposal)
    ensures p.id == proposalId && p.status != Pending ==> r == Failure(ProposalNotPending)
    ensures (p.id == proposalId && p.status == Pending && !signers.Contains(signer))
              ==> r == Failure(InvalidSigner)
    ensures r.Success? <==> p.id == proposalId && p.status == Pending && signers.Contains(signer)
    ensures r.Success? ==> r.value.status == Rejected && r.value.rejected
    ensures r.Success? ==> r.value.approvedBy == p.approvedBy
    ensures r.Success? ==> r.value.(status := p.status, rejected := p.rejected) == p
  {
    if p.id != proposalId then Failure(InvalidProposal)
    else if p.status != Pending then Failure(ProposalNotPending)
    else if !signers.Contains(signer) then Failure(InvalidSigner)
    else Success(p.(status := Rejected, rejected := true))
  }

  /** One approve or reject instruction against a proposal, with the signer
      set of the governance account passed alongside it. Nothing ties that
      account to the one the proposal was submitted through. */
  datatype Call =
    | ApproveCall(signers: SignerSet, signer: Pubkey, proposalId: u64, now: i64)
    | RejectCall(signers: SignerSet, signer: Pubkey, proposalId: u64)

  /** The proposal after one call; a failing call reverts. */
  function Apply(p: ProposalRecord, c: Call): ProposalRecord {
    var r := match c
      case ApproveCall(g, k, id, now) => ApproveStep(g, p, k, id, now)
      case RejectCall(g, k, id) => RejectStep(g, p, k, id);
    if r.Success? then r.value else p
  }

  /** The proposal after a sequence of calls, in order. */
  function Replay(p: ProposalRecord, calls: seq<Call>): ProposalRecord
    decreases |calls|
  {
    if calls == [] then p else Replay(Apply(p, calls[0]), calls[1..])
  }

  /** Every call of the sequence is checked against `signers`. */
  predicate AllAgainst(signers: SignerSet, calls: seq<Call>) {
    forall i :: 0 <= i < |calls| ==> calls[i].signers == signers
  }

  lemma AppendKeepsNoDuplicates(s: seq<Pubkey>, k: Pubkey)
    requires NoDuplicates(s) && k !in s
    ensures NoDuplicates(s + [k])
  {
    forall i, j | 0 <= i < j < |s + [k]| ensures (s + [k])[i] != (s + [k])[j] {
      if j == |s| {
        assert (s + [k])[i] == s[i];
      }
    }
  }

  /** A successful approval keeps the shape, and adds only a key of the
      signer set it was checked against. */
  lemma ApprovePreservesWellFormed(signers: SignerSet, p: ProposalRecord, signer: Pubkey,
                                   proposalId: u64, now: i64)
    requires WellShaped(p)
    ensures var r := ApproveStep(signers, p, signer, proposalId, now);
            r.Success? ==> WellShaped(r.value) && signers.Contains(signer)
                           && (MembersOnly(signers, p) ==> MembersOnly(signers, r.value))
  {
    if ApproveStep(signers, p, signer, proposalId, now).Success? {
      AppendKeepsNoDuplicates(p.approvedBy, signer);
    }
  }

  lemma RejectPreservesWellFormed(signers: SignerSet, p: ProposalRecord, signer: Pubkey,
                                  proposalId: u64)
    requires WellShaped(p)
    ensures var r := RejectStep(signers, p, signer, proposalId);
            r.Success? ==> WellShaped(r.value) && (MembersOnly(signers, p) ==> MembersOnly(signers, r.value))
  {
  }

  /** Whatever approvals and rejections arrive, through whatever governance
      accounts, the approvals stay distinct, at most two of them, and
      Approved means exactly two. */
  lemma {:induction false} ReplayPreservesShape(p: ProposalRecord, calls: seq<Call>)
    requires WellShaped(p)
    ensures WellShaped(Replay(p, calls))
    decreases |calls|
  {
    if calls != [] {
      match calls[0] {
        case ApproveCall(g, k, id, now) => ApprovePreservesWellFormed(g, p, k, id, now);
        case RejectCall(g, k, id) => RejectPreservesWellFormed(g, p, k, id);
      }
      ReplayPreservesShape(Apply(p, calls[0]), calls[1..]);
    }
  }

  /** When every call is checked against the same signer set, every approval
      is also a key of that set. */
  lemma {:induction false} ReplayPreservesWellFormed(signers: SignerSet, p: ProposalRecord,
                                                     calls: seq<Call>)
    requires WellFormed(signers, p)
    requires AllAgainst(signers, calls)
    ensures WellFormed(signers, Replay(p, calls))
    decreases |calls|
  {
    if calls != [] {
      assert calls[0].signers == signers;
      match calls[0] {
        case ApproveCall(g, k, id, now) => ApprovePreservesWellFormed(g, p, k, id, now);
        case RejectCall(g, k, id) => RejectPreservesWellFormed(g, p, k, id);
      }
      var rest := calls[1..];
      assert forall i :: 0 <= i < |rest| ==> rest[i] == calls[i + 1];
      ReplayPreservesWellFormed(signers, Apply(p, calls[0]), rest);
    }
  }

  /** Approved and Rejected are terminal: no later call changes the proposal. */
  lemma {:induction false} TerminalIsFinal(p: ProposalRecord, calls: seq<Call>)
    requires p.status != Pending
    ensures Replay(p, calls) == p
    decreases |calls|
  {
    if calls != [] {
      assert Apply(p, calls[0]) == p;
      TerminalIsFinal(p, calls[1..]);
    }
  }

  /** On a terminal proposal with the right id every approve and every
      reject fails with ProposalNotPending. */
  lemma TerminalRefusesWithNotPending(signers: SignerSet, p: ProposalRecord, signer: Pubkey, now: i64)
    requires p.status in {Approved, Rejected}
    ensures ApproveStep(signers, p, signer, p.id, now) == Failure(ProposalNotPending)
    ensures RejectStep(signers, p, signer, p.id) == Failure(ProposalNotPending)
  {
  }

  /** Calls never touch the identity, the content or the timelock of a
      proposal, and approvals are only ever appended. */
  lemma {:induction false} ReplayKeepsIdentity(p: ProposalRecord, calls: seq<Call>)
    ensures var q := Replay(p, calls);
            && q.id == p.id && q.proposer == p.proposer && q.title == p.title
            && q.description == p.description && q.proposalType == p.proposalType
            && q.createdAt == p.createdAt && q.timelockUntil == p.timelockUntil
            && p.approvedBy <= q.approvedBy
    decreases |calls|
  {
    if calls != [] {
      ReplayKeepsIdentity(Apply(p, calls[0]), calls[1..]);
    }
  }

  /** The approval boundary is inclusive: at `now == timelock_until` the
      timelock guard passes, one second earlier it fails. */
  lemma TimelockBoundaryInclusive(signers: SignerSet, p: ProposalRecord, signer: Pubkey)
    requires p.status == Pending && signers.Contains(signer) && signer !in p.approvedBy
    requires I64Min < p.timelockUntil
    ensures ApproveStep(signers, p, signer, p.id, p.timelockUntil).Success?
    ensures ApproveStep(signers, p, signer, p.id, p.timelockUntil - 1) == Failure(TimelockedProposal)
  {
  }

  /** A rejection fails exactly where an approval by the same signer fails on
      one of the first three guards, with the same error; the duplicate and
      timelock guards of an approval never stop a rejection. */
  lemma RejectIgnoresTimelockAndApprovals(signers: SignerSet, p: ProposalRecord, signer: Pubkey,
                                          proposalId: u64, now: i64)
    ensures var approve := ApproveStep(signers, p, signer, proposalId, now);
            var reject := RejectStep(signers, p, signer, proposalId);
            && (reject.Failure? <==>
                  approve.Failure? && approve.error in {InvalidProposal, ProposalNotPending, InvalidSigner})
            && (reject.Failure? ==> reject.error == approve.error)
            && (approve.Success? ==> reject.Success?)
  {
  }

  /** An Approved proposal carries two distinct approvals by members. */
  lemma ApprovedMeansTwoDistinctSigners(signers: SignerSet, p: ProposalRecord)
    requires WellFormed(signers, p) && p.status == Approved
    ensures |p.approvedBy| == 2 && p.approvedBy[0] != p.approvedBy[1]
    ensures signers.Contains(p.approvedBy[0]) && signers.Contains(p.approvedBy[1])
  {
    assert p.approvedBy[0] in p.approvedBy && p.approvedBy[1] in p.approvedBy;
  }

  /** `initialize_governance` accepts three equal keys; calls checked against
      such a governance can never approve anything, since approvals must come
      from distinct keys. */
  lemma SingleKeyGovernanceNeverApproves(k: Pubkey, p: ProposalRecord, calls: seq<Call>)
    requires WellFormed(SignerSet(k, k, k), p)
    requires AllAgainst(SignerSet(k, k, k), calls)
    ensures Replay(p, calls).status != Approved
  {
    var signers := SignerSet(k, k, k);
    var q := Replay(p, calls);
    ReplayPreservesWellFormed(signers, p, calls);
    if q.status == Approved {
      ApprovedMeansTwoDistinctSigners(signers, q);
      assert false;
    }
  }

  /** As written, any two distinct keys approve any fresh proposal past its
      timelock through a governance account of their own, whatever account
      the proposal was submitted through. */
  lemma ForeignSignersApprove(p: ProposalRecord, x: Pubkey, y: Pubkey, now: i64)
    requires p.status == Pending && p.approvedBy == [] && p.timelockUntil <= now
    requires x != y
    ensures Replay(p, [ApproveCall(SignerSet(x, y, y), x, p.id, now),
                       ApproveCall(SignerSet(x, y, y), y, p.id, now)])
            == p.(approvedBy := [x, y], status := Approved)
  {
    var g := SignerSet(x, y, y);
    var calls := [ApproveCall(g, x, p.id, now), ApproveCall(g, y, p.id, now)];
    var p1 := Apply(p, calls[0]);
    assert p1 == p.(approvedBy := [x]);
    var p2 := Apply(p1, calls[1]);
    assert p2 == p.(approvedBy := [x, y], status := Approved);
    assert calls[1..] == [calls[1]] && calls[1..][1..] == [];
    assert Replay(p, calls) == Replay(p1, [calls[1]]) == Replay(p2, []);
  }

  /** With the binding the program leaves out: a call through any governance
      account other than the proposal's own is refused, and reverts. */
  function ApplyBound(owner: SignerSet, p: ProposalRecord, c: Call): ProposalRecord {
    if c.signers == owner then Apply(p, c) else p
  }

  function ReplayBound(owner: SignerSet, p: ProposalRecord, calls: seq<Call>): ProposalRecord
    decreases |calls|
  {
    if calls == [] then p else ReplayBound(owner, ApplyBound(owner, p, calls[0]), calls[1..])
  }

  /** Bound to its own governance account, a proposal's approvals are always
      distinct keys of that account, whatever calls arrive; so a governance
      with three equal keys never approves anything. */
  lemma {:induction false} ReplayBoundPreservesWellFormed(owner: SignerSet, p: ProposalRecord,
                                                          calls: seq<Call>)
    requires WellFormed(owner, p)
    ensures WellFormed(owner, ReplayBound(owner, p, calls))
    ensures (owner.signer1 == owner.signer2 == owner.signer3)
              ==> ReplayBound(owner, p, calls).status != Approved
    decreases |calls|
  {
    if calls != [] {
      if calls[0].signers == owner {
        match calls[0] {
          case ApproveCall(g, k, id, now) => ApprovePreservesWellFormed(g, p, k, id, now);
          case RejectCall(g, k, id) => RejectPreservesWellFormed(g, p, k, id);
        }
      }
      ReplayBoundPreservesWellFormed(owner, ApplyBound(owner, p, calls[0]), calls[1..]);
    } else if owner.signer1 == owner.signer2 == owner.signer3 && p.status == Approved {
      ApprovedMeansTwoDistinctSigners(owner, p);
    }
  }

  /** The governance account: three signer keys and the proposal counter. */
  class Governance {
    var signer1: Pubkey
    var signer2: Pubkey
    var signer3: Pubkey
    var proposalCount: u64

    /** The proposal ids handed out so far. */
    ghost var issued: set<int>

    ghost predicate Valid()
      reads this
    {
      forall id :: id in issued <==> 0 <= id < proposalCount
    }

    function Members(): SignerSet
      reads this
    {
      SignerSet(signer1, signer2, signer3)
    }

    /** `initialize_governance`; the keys are stored as given, equal or not. */
    constructor Initialize(signer1: Pubkey, signer2: Pubkey, signer3: Pubkey)
      ensures Valid()
      ensures Members() == SignerSet(signer1, signer2, signer3)
      ensures proposalCount == 0 && issued == {}
    {
      this.signer1 := signer1;
      this.signer2 := signer2;
      this.signer3 := signer3;
      proposalCount := 0;
      issued := {};
    }

    /** `submit_proposal`: open to any proposer; takes the next id. */
    method SubmitProposal(proposer: Pubkey, title: string, description: string,
                          proposalType: ProposalType, now: i64)
      returns (proposal: Proposal, event: Event)
      requires Valid()
      requires proposalCount < U64Max
      requires now + TimelockDelay <= I64Max
      modifies this`proposalCount, this`issued
      ensures Valid() && fresh(proposal)
      ensures proposal.State() == NewProposal(old(proposalCount), proposer, title, description,
                                              proposalType, now)
      ensures proposalCount == old(proposalCount) + 1
      ensures proposal.id !in old(issued) && issued == old(issued) + {proposal.id as int}
      ensures event == ProposalSubmitted(proposal.id, proposer, now)
    {
      proposal := new Proposal.Create(proposalCount, proposer, title, description, proposalType, now);
      proposalCount := proposalCount + 1;
      issued := issued + {proposal.id as int};
      event := ProposalSubmitted(proposal.id, proposal.proposer, proposal.createdAt);
    }

    /** `distribute_rewards`: guarded only by "some proposal was ever
        submitted"; it changes no account. */
    method DistributeRewards(amount: u64, now: i64) returns (r: Result<Event, GovernanceError>)
      ensures r.Failure? <==> proposalCount == 0
      ensures r.Failure? ==> r.error == NoProposals
      ensures r.Success? ==> r.value == RewardsDistributed(amount, now)
    {
      if proposalCount == 0 {
        return Failure(NoProposals);
      }
      r := Success(RewardsDistributed(amount, now));
    }
  }

  /** A proposal account. */
  class Proposal {
    var id: u64
    var proposer: Pubkey
    var title: string
    var description: string
    var proposalType: ProposalType
    var createdAt: i64
    var timelockUntil: i64
    var status: ProposalStatus
    var approvedBy: seq<Pubkey>
    var rejected: bool

    function State(): ProposalRecord
      reads this
    {
      ProposalRecord(id, proposer, title, description, proposalType,
                     createdAt, timelockUntil, status, approvedBy, rejected)
    }

    /** The field writes of `submit_proposal` on the freshly created account. */
    constructor Create(id: u64, proposer: Pubkey, title: string, description: string,
                       proposalType: ProposalType, now: i64)
      requires now + TimelockDelay <= I64Max
      ensures State() == NewProposal(id, proposer, title, description, proposalType, now)
    {
      this.id := id;
      this.proposer := proposer;
      this.title := title;
      this.description := description;
      this.proposalType := proposalType;
      createdAt := now;
      timelockUntil := now + TimelockDelay;
      status := Pending;
      approvedBy := [];
      rejected := false;
    }

    /** `approve_proposal` by `signer`, checked against `governance`. */
    method Approve(governance: Governance, proposalId: u64, signer: Pubkey, now: i64)
      returns (r: Result<Option<Event>, GovernanceError>)
      modifies this`approvedBy, this`status
      ensures var step := ApproveStep(governance.Members(), old(State()), signer, proposalId, now);
              && (step.Failure? ==> r == Failure(step.error) && State() == old(State()))
              && (step.Success? ==> State() == step.value && r.Success?)
      ensures r.Success? ==> r.value == if status == Approved
                                        then Some(ProposalApproved(id, approvedBy, now)) else None
    {
      if id != proposalId {
        return Failure(InvalidProposal);
      }
      if status != Pending {
        return Failure(ProposalNotPending);
      }
      var isValidSigner := signer == governance.signer1
        || signer == governance.signer2
        || signer == governance.signer3;
      if !isValidSigner {
        return Failure(InvalidSigner);
      }
      if signer in approvedBy {
        return Failure(AlreadyApproved);
      }
      if now < timelockUntil {
        return Failure(TimelockedProposal);
      }
      approvedBy := approvedBy + [signer];
      if |approvedBy| >= ApprovalThreshold {
        status := Approved;
        return Success(Some(ProposalApproved(id, approvedBy, now)));
      }
      r := Success(None);
    }

    /** `reject_proposal` by `signer`, checked against `governance`. */
    method Reject(governance: Governance, proposalId: u64, signer: Pubkey, now: i64)
      returns (r: Result<Event, GovernanceError>)
      modifies this`status, this`rejected
      ensures var step := RejectStep(governance.Members(), old(State()), signer, proposalId);
              && (step.Failure? ==> r == Failure(step.error) && State() == old(State()))
              && (step.Success? ==> State() == step.value && r == Success(ProposalRejected(id, now)))
    {
      if id != proposalId {
        return Failure(InvalidProposal);
      }
      if status != Pending {
        return Failure(ProposalNotPending);
      }
      var isValidSigner := signer == governance.signer1
        || signer == governance.signer2
        || signer == governance.signer3;
      if !isValidSigner {
        return Failure(InvalidSigner);
      }
      status := Rejected;
      rejected := true;
      r := Success(ProposalRejected(id, now));
    }
  }

  /** The approval lifecycle on three distinct keys: timelocked first, then
      one approval leaves it Pending, a repeated approval is refused, the
      second signer approves it and the third is turned away. */
  method ApprovalScenario(a: Pubkey, b: Pubkey, c: Pubkey)
    requires a != b && a != c && b != c
  {
    var governance := new Governance.Initialize(a, b, c);
    var p, _ := governance.SubmitProposal(a, "t", "d", TreasuryWithdrawal, 0);
    assert p.id == 0 && p.timelockUntil == 172800;

    var r := p.Approve(governance, 0, a, 100);
    assert r == Failure(TimelockedProposal);
    r := p.Approve(governance, 0, a, 172800);
    assert p.status == Pending && p.approvedBy == [a];
    r := p.Approve(governance, 0, a, 172850);
    assert r == Failure(AlreadyApproved);
    r := p.Approve(governance, 0, b, 172900);
    assert p.status == Approved && p.approvedBy == [a, b];
    r := p.Approve(governance, 0, c, 173000);
    assert r == Failure(ProposalNotPending);
  }

  /** A single signer rejects a fresh proposal immediately, inside the
      timelock; the second submission gets the next id. */
  method RejectionScenario(a: Pubkey, b: Pubkey, c: Pubkey) {
    var governance := new Governance.Initialize(a, b, c);
    var p, _ := governance.SubmitProposal(a, "t", "d", ParameterChange, 0);
    var q, _ := governance.SubmitProposal(b, "t", "d", EmergencyAction, 0);
    assert p.id == 0 && q.id == 1;
    var r := q.Reject(governance, 1, c, 5);
    assert q.status == Rejected && q.rejected && q.approvedBy == [];
  }

  /** A proposal submitted through a governance of three equal keys is
      approved through a second governance account holding two other keys. */
  method ForeignGovernanceScenario(k: Pubkey, x: Pubkey, y: Pubkey)
    requires x != y
  {
    var home := new Governance.Initialize(k, k, k);
    var p, _ := home.SubmitProposal(k, "t", "d", TreasuryWithdrawal, 0);
    var other := new Governance.Initialize(x, y, y);
    var r := p.Approve(other, 0, x, 172800);
    r := p.Approve(other, 0, y, 172800);
    assert p.status == Approved && p.approvedBy == [x, y];
  }
}
