# Braincoin on-chain programs, modelled in Dafny

This project models the four Anchor programs of the Braincoin repository.
They are small record-keeping state machines on Solana.

- **guardian**: a 2-of-3 multisig. Anyone may submit a proposal. It gets the
  next id from a counter and a 48-hour timelock. A member signer may approve
  it once the timelock has passed. Two approvals make it Approved. Any single
  member may reject it at any time.
- **agent-syndicate**: a ledger of AI-agent partners. Each partner has
  allocated capital, a staking tier and an append-only list of profit
  reports. It also holds the tier-multiplier reward formula.
- **brain**: a profit-and-loss accumulator with a one-way circuit breaker.
  Only `unfreeze_brain` clears the breaker. It also has a four-step
  evolution ladder.
- **fee-collector**: a percentage fee on each trade, withdrawals from the
  collected fees, and a bounded percentage update.

The Solana runtime reverts every instruction that returns `Err`, and runs
instructions against one account one at a time. So each instruction is one
sequential method. On failure nothing changes. On success the contract says
exactly which fields move.

Layout, one module per program:

- `solana.dfy` (`Solana`): `u64`/`i64` as bounded subset types of `int`,
  `Pubkey` as a 32-byte sequence compared only for equality, `Option`,
  `Result`, and Rust's `checked_add`/`checked_mul`.
- `guardian.dfy` (`Guardian`), `agent_syndicate.dfy` (`AgentSyndicate`),
  `brain.dfy` (`Brain`), `fee_collector.dfy` (`FeeCollector`).

Each program module has the same shape:

- a `class` per account, with the source's fields;
- a `State()` function that gives the account's fields as a datatype value;
- a pure step function per instruction on that value;
- class methods that update the fields in place, with an `ensures` tying
  the new `State()` to the step function and the old state;
- lemmas about the step functions, including lemmas over whole sequences of
  calls (`Replay…`), where a failing call leaves the state as it was.

`Clock::get()` becomes a `now: i64` parameter. Within one instruction every
clock read gives the same value. Each `emit!` becomes a returned `Event`
value. `Guardian.ApprovalScenario` and `Guardian.RejectionScenario` replay
the governance lifecycle on concrete times through the class methods.

Nothing in `initialize_governance` makes the three signers distinct
(`programs/guardian/src/lib.rs:19-21`), and the model follows the code.
`SingleKeyGovernanceNeverApproves` shows what follows when all three keys are
the same: no call checked against that governance account ever approves a
proposal.

The account constraints do not tie a proposal to a particular governance
account, nor a partner to a particular syndicate
(`programs/guardian/src/lib.rs:167-181`). So `Proposal.Approve`,
`Proposal.Reject` and `Partner.ReportProfit` take any `Governance` or
`Syndicate` object, and each guardian `Call` carries the signer set of the
governance account passed with it. The shape of a proposal (`WellShaped`:
distinct approvals, at most two, Approved meaning exactly two) holds whatever
accounts are passed. Membership of the approvals (`WellFormed`) holds only
for calls checked against one signer set. `ForeignSignersApprove` and
`Guardian.ForeignGovernanceScenario` show that anyone holding two keys can
approve any proposal through a governance account of their own; see
"## Findings".

## Model

| member | source | states |
|---|---|---|
| `Guardian.Governance.Initialize` | programs/guardian/src/lib.rs:12-25 | stores the three keys as given, equal or not, with a zero proposal counter and no ids issued |
| `Guardian.Governance.SubmitProposal` | programs/guardian/src/lib.rs:28-57 | the new proposal account is `NewProposal(old count, …)`; the counter grows by exactly one; the new id was never issued before and joins the issued set; emits `ProposalSubmitted(id, proposer, now)` |
| `Guardian.Proposal.Create` | programs/guardian/src/lib.rs:37-46 | the field writes of a submission give exactly `NewProposal(…)` |
| `Guardian.NewProposal` | programs/guardian/src/lib.rs:37-46 | id is the old counter and `created_at` is `now`; status is Pending, with no approvals and `rejected = false`; the proposal is well formed for every signer set, so `timelock_until = created_at + 172800` |
| `Guardian.ApproveStep` | programs/guardian/src/lib.rs:67-87 | fails with InvalidProposal, ProposalNotPending, InvalidSigner, AlreadyApproved, TimelockedProposal, in that order of precedence; succeeds iff all five guards pass; on success appends exactly the signer, becomes Approved iff there are at least two approvals (else stays Pending), and changes no other field |
| `Guardian.Proposal.Approve` | programs/guardian/src/lib.rs:60-97 | on failure returns `ApproveStep`'s error and leaves the account unchanged; on success returns `Success` and the account is `ApproveStep`'s result; emits `ProposalApproved(id, approvals, now)` exactly when the status became Approved |
| `Guardian.RejectStep` | programs/guardian/src/lib.rs:107-118 | only the id, status and signer guards, in that order; succeeds iff they pass; on success the status is Rejected and `rejected = true`, with the approvals and every other field unchanged |
| `Guardian.Proposal.Reject` | programs/guardian/src/lib.rs:100-126 | on failure returns `RejectStep`'s error and leaves the account unchanged; on success the account is `RejectStep`'s result and `ProposalRejected(id, now)` is emitted |
| `Guardian.Governance.DistributeRewards` | programs/guardian/src/lib.rs:129-144 | fails with NoProposals iff the counter is 0, otherwise emits `RewardsDistributed(amount, now)`; changes no account |
| `Guardian.ApprovePreservesWellFormed` | programs/guardian/src/lib.rs:77-87 | a successful approval keeps the approvals duplicate-free, at most two, with Approved meaning exactly two; the added key belongs to the signer set it was checked against, so approvals by members only stay members only |
| `Guardian.RejectPreservesWellFormed` | programs/guardian/src/lib.rs:117-118 | a successful rejection keeps the proposal well shaped, with `rejected` true exactly for Rejected, and adds no approval |
| `Guardian.ReplayPreservesShape` | programs/guardian/src/lib.rs:67-118 | after any sequence of approve and reject calls, through any governance accounts, a well-shaped proposal stays well shaped: distinct approvals, at most two, Approved meaning exactly two |
| `Guardian.ReplayPreservesWellFormed` | programs/guardian/src/lib.rs:67-118 | when every call is checked against one signer set, a well-formed proposal stays well formed, so every approval is a key of that set |
| `Guardian.TerminalIsFinal` | programs/guardian/src/lib.rs:68-108 | from Approved or Rejected no sequence of calls changes the proposal |
| `Guardian.TerminalRefusesWithNotPending` | programs/guardian/src/lib.rs:68-108 | on an Approved or Rejected proposal, approve and reject with the right id both fail with ProposalNotPending |
| `Guardian.ReplayKeepsIdentity` | programs/guardian/src/lib.rs:83-118 | no call changes id, proposer, title, description, type, `created_at` or `timelock_until`; the old approvals are a prefix of the new ones |
| `Guardian.TimelockBoundaryInclusive` | programs/guardian/src/lib.rs:80-81 | approving at exactly `timelock_until` passes the timelock guard; one second earlier it fails with TimelockedProposal |
| `Guardian.RejectIgnoresTimelockAndApprovals` | programs/guardian/src/lib.rs:107-118 | a rejection fails exactly where an approval by the same signer fails on the id, status or signer guard, with the same error; wherever an approval succeeds a rejection does too, so neither the timelock nor earlier approvals stop one |
| `Guardian.ApprovedMeansTwoDistinctSigners` | programs/guardian/src/lib.rs:77-87 | an Approved well-formed proposal has exactly two approvals, from two distinct member keys |
| `Guardian.SingleKeyGovernanceNeverApproves` | programs/guardian/src/lib.rs:19-21 | if the three keys are equal, no sequence of calls all checked against that signer set ever makes a proposal Approved |
| `Guardian.ForeignSignersApprove` | programs/guardian/src/lib.rs:60-87 | any two distinct keys approve any fresh proposal past its timelock through a governance account holding them, whatever account the proposal was submitted through |
| `Guardian.ReplayBoundPreservesWellFormed` | programs/guardian/src/lib.rs:167-181 | with each call refused unless it comes through the proposal's own governance account, the proposal stays well formed for that account, and a governance of three equal keys never approves |
| `AgentSyndicate.Syndicate.Initialize` | programs/agent-syndicate/src/lib.rs:12-22 | stores the authority, with zero partners, zero allocated capital and zero profits |
| `AgentSyndicate.AddPartnerStep` | programs/agent-syndicate/src/lib.rs:34-45 | fails with MathOverflow iff the total allocated capital would exceed `u64::MAX`; on success the count goes up by one and the capital is added to the total; the new partner has the old count as id, the given agent, capital and tier, is active, and has zero profits, no reports and a consistent ledger |
| `AgentSyndicate.Syndicate.AddPartner` | programs/agent-syndicate/src/lib.rs:25-54 | on failure nothing changes and no account is created; on success a fresh partner account holds `AddPartnerStep`'s partner, the syndicate holds its new totals, and `PartnerAdded` is emitted |
| `AgentSyndicate.Partner.Create` | programs/agent-syndicate/src/lib.rs:34-41 | the field writes of `add_partner` on the new account |
| `AgentSyndicate.ReportProfitStep` | programs/agent-syndicate/src/lib.rs:65-77 | InvalidPartner on an id mismatch, then PartnerInactive, then MathOverflow when either the partner's or the syndicate's total would overflow; on success both totals grow by the amount and exactly one report `(amount, now)` is appended; no other field changes |
| `AgentSyndicate.Partner.ReportProfit` | programs/agent-syndicate/src/lib.rs:57-86 | on failure neither account changes; on success both accounts hold `ReportProfitStep`'s result and `ProfitReported` carries the new partner total |
| `AgentSyndicate.WithdrawCapitalStep` | programs/agent-syndicate/src/lib.rs:119-127 | InvalidPartner on an id mismatch, InsufficientCapital iff the amount exceeds the capital; on success the capital shrinks by the amount and the partner stays active iff it was active and capital remains |
| `AgentSyndicate.Partner.WithdrawCapital` | programs/agent-syndicate/src/lib.rs:112-136 | on failure nothing changes; on success the partner holds `WithdrawCapitalStep`'s result and `CapitalWithdrawn` carries the remaining capital; the syndicate account is not among the things it may modify, so `total_allocated` is untouched |
| `AgentSyndicate.Syndicate.DistributeWeeklyRewards` | programs/agent-syndicate/src/lib.rs:89-109 | NoPartners when there are no partners, else InvalidAmount for an empty pool, else emits `WeeklyRewardsDistributed(pool, count, now)`; changes no account |
| `AgentSyndicate.CalculateReward` | programs/agent-syndicate/src/lib.rs:140-158 | fails with MathOverflow iff `base * multiplier` exceeds `u64::MAX`; otherwise returns `base * multiplier / 100` rounded down, between the base and three times the base |
| `AgentSyndicate.RewardPerTier` | programs/agent-syndicate/src/lib.rs:144-155 | where the product fits: Bronze returns the base, Silver base + base/2, Gold twice the base, Platinum three times the base |
| `AgentSyndicate.RewardMonotoneInTier` | programs/agent-syndicate/src/lib.rs:144-155 | a tier with a smaller multiplier succeeds wherever a higher one does, and pays no more |
| `AgentSyndicate.BronzeOverflowsBeforeDividing` | programs/agent-syndicate/src/lib.rs:151-155 | Bronze fails with MathOverflow at base `u64::MAX / 100 + 1`, though its reward would equal the base |
| `AgentSyndicate.CalculateRewardWide` | programs/agent-syndicate/src/lib.rs:151-155 | the formula with a 128-bit product: fails iff the reward itself exceeds `u64::MAX`, and agrees with `CalculateReward` wherever that one succeeds |
| `AgentSyndicate.WideRewardPerTier` | programs/agent-syndicate/src/lib.rs:144-155 | with the wide product, Bronze returns the base for every base; Gold and Platinum return two and three times the base whenever that fits |
| `AgentSyndicate.SumOfReportsAppend` | programs/agent-syndicate/src/lib.rs:74-77 | appending a report adds its amount to the sum of the reports |
| `AgentSyndicate.ReportProfitKeepsLedger` | programs/agent-syndicate/src/lib.rs:68-77 | a successful report keeps `total_profits` equal to the sum of the report amounts |
| `AgentSyndicate.ReplayKeepsLedger` | programs/agent-syndicate/src/lib.rs:65-127 | after any sequence of reports and withdrawals, `total_profits` is still the sum of the reports, and the old reports are a prefix of the new ones |
| `AgentSyndicate.InactiveStaysInactive` | programs/agent-syndicate/src/lib.rs:66-127 | once inactive, a partner never becomes active again, gets no further reports, and leaves the syndicate state unchanged |
| `Brain.BrainState.Initialize` | programs/brain/src/lib.rs:13-27 | balance 0, not frozen, tier Cellular, the given limit, mint and authority, `last_updated = now` |
| `Brain.ReportPnlStep` | programs/brain/src/lib.rs:36-50 | BrainFrozen when frozen; otherwise MathOverflow iff the new balance leaves the `i64` range; on success the balance grows by the amount, `frozen` is true iff the new balance is below the limit, `last_updated = now`, and nothing else changes |
| `Brain.BrainState.ReportPnl` | programs/brain/src/lib.rs:30-53 | on failure nothing changes; on success returns `Success` and the account is `ReportPnlStep`'s result, and `CircuitBreakerTriggered` is emitted exactly when the breaker tripped |
| `Brain.FrozenUntilUnfrozen` | programs/brain/src/lib.rs:36-43 | from a frozen state, any sequence without `unfreeze_brain` leaves the brain frozen, with its balance and `last_updated` unchanged |
| `Brain.ReplayKeepsConfiguration` | programs/brain/src/lib.rs:30-109 | no instruction changes the mint, the authority or the PnL limit |
| `Brain.BrainState.ProposePartnership` | programs/brain/src/lib.rs:56-76 | BrainFrozen iff frozen; otherwise returns an active partnership with the given agent and capital, created at `now`; the brain state is not modified |
| `Brain.NextTier` | programs/brain/src/lib.rs:82-87 | moves one rung up the ladder Cellular, Sentient, Superintelligent, Godlike; Godlike is its only fixed point |
| `Brain.EvolveTimesRank` | programs/brain/src/lib.rs:82-89 | `n` evolutions raise the rung by `n`, capped at the top |
| `Brain.ThreeEvolutionsReachGodlike` | programs/brain/src/lib.rs:82-89 | three or more evolutions from any tier give Godlike, and a further evolution keeps it |
| `Brain.BrainState.EvolveTier` | programs/brain/src/lib.rs:79-97 | only the tier changes, to `NextTier` of the old tier, whatever the frozen flag; emits `TierEvolved` with the new tier |
| `Brain.BrainState.UnfreezeBrain` | programs/brain/src/lib.rs:100-109 | sets `frozen = false` and changes nothing else; emits `BrainUnfrozen(now)` |
| `FeeCollector.FeeCollector.Initialize` | programs/fee-collector/src/lib.rs:10-23 | stores the percentage unchecked, with zero collected and zero withdrawn |
| `FeeCollector.UncheckedInitialPercentage` | programs/fee-collector/src/lib.rs:18-20 | the percentage is stored unchecked: for every percentage above 100, a trade of 100 (or of 1 when `100 * p` overflows) records a fee larger than the trade |
| `FeeCollector.FeeAmount` | programs/fee-collector/src/lib.rs:33-37 | MathOverflow iff `trade * percentage` exceeds `u64::MAX`; otherwise `trade * percentage / 100` rounded down |
| `FeeCollector.FeeAtMostTrade` | programs/fee-collector/src/lib.rs:33-37 | with a percentage of at most 100 the fee is at most the trade |
| `FeeCollector.RecordFeeStep` | programs/fee-collector/src/lib.rs:33-41 | MathOverflow iff the product or the new collected total overflows; on success only the collected total grows, by the fee, and by at most the trade when the percentage is at most 100 |
| `FeeCollector.FeeCollector.RecordFee` | programs/fee-collector/src/lib.rs:26-51 | on failure nothing changes; on success returns `Success`, the account is `RecordFeeStep`'s result and `FeeRecorded` carries the fee and the new total |
| `FeeCollector.WithdrawFeesStep` | programs/fee-collector/src/lib.rs:60-71 | InsufficientFees iff the amount exceeds the collected fees, then MathOverflow iff the withdrawn total would overflow; on success the amount moves from collected to withdrawn, their sum is preserved, and nothing else changes |
| `FeeCollector.FeeCollector.WithdrawFees` | programs/fee-collector/src/lib.rs:54-80 | on failure nothing changes; on success the account is `WithdrawFeesStep`'s result and `FeesWithdrawn` names the treasury |
| `FeeCollector.UpdateFeePercentageStep` | programs/fee-collector/src/lib.rs:89-92 | succeeds iff `0 < p <= 100`, else InvalidPercentage; on success only the percentage changes, to `p` |
| `FeeCollector.FeeCollector.UpdateFeePercentage` | programs/fee-collector/src/lib.rs:83-101 | on failure nothing changes; on success the account is `UpdateFeePercentageStep`'s result and the event carries the old and new percentages |
| `FeeCollector.FeeCollector.GetFeeBalance` | programs/fee-collector/src/lib.rs:104-107 | returns the collected total and modifies nothing |
| `FeeCollector.ReplayConservesFees` | programs/fee-collector/src/lib.rs:39-71 | over any sequence of record, withdraw and update calls, collected plus withdrawn grows by exactly the fees recorded, and the withdrawn total never shrinks |
| `FeeCollector.ValidPercentageStaysValid` | programs/fee-collector/src/lib.rs:89-92 | once the percentage is within `1..=100`, no sequence of calls takes it out of that range |

## Left out

- Anchor account plumbing: the `#[derive(Accounts)]` constraints, account creation and space sizing, rent, and signature checks. The `authority` signers are never compared with the stored `authority` fields, so there is no behaviour there to model.
- `Clock::get()` failing. Time is the `now` parameter.
- Event transport. Events are returned as values. `TierEvolved` carries the tier itself instead of its `format!`ted name.
- Account size limits. Proposal and partner accounts have fixed space (8 + 512 bytes). A `push` onto `approved_by` or `profit_reports` that outgrows it would make serialisation fail and revert the instruction. The model's lists are unbounded. A proposal takes 71 bytes plus its title and description plus 32 bytes per approval. So one whose title and description total 378 to 441 bytes can be submitted, but its second approval (from 410 bytes on, its first) outgrows the account and reverts; the model approves such a proposal.
- The partnership account made by `propose_partnership` is returned as a `Partnership` value, not as an object: no instruction writes it afterwards. The brain state is passed as writable there but is not written.
- The `Executed` proposal status: no instruction in the guardian program ever sets it, so `WellFormed` excludes it.
- Title and description contents and lengths: the source puts no explicit bound on them.
- Guardian.Governance.SubmitProposal: `proposal_count += 1` and `now + 48 * 3600` are unchecked in the source. The model requires the counter to be below `u64::MAX` and `now + 172800` to fit in `i64`, rather than modelling a wrap or a panic.
- AgentSyndicate.Syndicate.AddPartner: `partner_count += 1` is unchecked in the source. The model requires the count to be below `u64::MAX`.
- AgentSyndicate.Syndicate.DistributeWeeklyRewards: the per-partner quotient is computed and then discarded. It cannot fail, because the count is positive at that point. No funds move.
- The off-chain services (`services/src/*.ts`), the deployment script and the configuration loader are not part of this model. They are HTTP/RPC calls, timers, floating-point arithmetic over mock data, and file and environment I/O. The placeholder `braincoin` program only logs a message.

## Findings

| source | as written | input that shows it | evidently intended | confidence | as-written member | corrected member |
|---|---|---|---|---|---|---|
| programs/guardian/src/lib.rs:167-181 | `approve_proposal` checks the signer against whatever governance account is passed; nothing ties the proposal to the governance it was submitted through | two approvals at `timelock_until` by keys `x != y` through a fresh governance `(x, y, y)` make a proposal of governance `(k, k, k)` Approved | only the signers of the proposal's own governance can approve or reject it | medium; not executed | `Guardian.ForeignSignersApprove` | `Guardian.ReplayBoundPreservesWellFormed` |
| programs/agent-syndicate/src/lib.rs:151-155 | the reward is `base.checked_mul(m)?` then `/ 100`, so the 64-bit product overflows even when the reward itself fits | `calculate_reward(u64::MAX / 100 + 1, Bronze)` returns MathOverflow, although the 1x tier should return the base | fail only when the reward exceeds `u64::MAX` (for example by multiplying in 128 bits) | medium; not executed | `AgentSyndicate.BronzeOverflowsBeforeDividing` | `AgentSyndicate.CalculateRewardWide` |
