/** The agent-syndicate program: a ledger of AI-agent partners, each with
    allocated capital, a staking tier and an append-only list of profit
    reports, plus the tier-multiplier reward formula. */
module AgentSyndicate {
  import opened Solana

  datatype StakingTier = Bronze | Silver | Gold | Platinum

  datatype AgentError =
    | InvalidPartner
    | PartnerInactive
    | MathOverflow
    | NoPartners
    | InvalidAmount
    | InsufficientCapital

  datatype ProfitReport = ProfitReport(amount: u64, timestamp: i64)

  datatype Event =
    | PartnerAdded(partnerId: u64, agent: Pubkey, capital: u64)
    | ProfitReported(partnerId: u64, amount: u64, totalProfits: u64)
    | WeeklyRewardsDistributed(totalPool: u64, partnerCount: u64, timestamp: i64)
    | CapitalWithdrawn(partnerId: u64, amount: u64, remaining: u64)

  /** The fields of the syndicate account, as a value. */
  datatype SyndicateRecord = SyndicateRecord(
    authority: Pubkey,
    partnerCount: u64,
    totalAllocated: u64,
    totalProfits: u64)

  /** The fields of a partner account, as a value. */
  datatype PartnerRecord = PartnerRecord(
    id: u64,
    agent: Pubkey,
    allocatedCapital: u64,
    tier: StakingTier,
    active: bool,
    createdAt: i64,
    totalProfits: u64,
    profitReports: seq<ProfitReport>)

  /** The sum of the amounts of a list of reports. */
  function SumOfReports(reports: seq<ProfitReport>): int {
    if reports == [] then 0 else reports[0].amount + SumOfReports(reports[1..])
  }

  /** A partner's running total agrees with its report list. */
  ghost predicate Ledgered(p: PartnerRecord) {
    p.totalProfits == SumOfReports(p.profitReports)
  }

  /** `add_partner`: the new partner takes the next id; the capital is added
      to the syndicate total with overflow checking. */
  function AddPartnerStep(s: SyndicateRecord, agent: Pubkey, capital: u64, tier: StakingTier,
                          now: i64): (r: Result<(SyndicateRecord, PartnerRecord), AgentError>)
    requires s.partnerCount < U64Max
    ensures r.Failure? <==> s.totalAllocated + capital > U64Max
    ensures r.Failure? ==> r.error == MathOverflow
    ensures r.Success? ==>
              r.value.0 == s.(partnerCount := s.partnerCount + 1,
                              totalAllocated := s.totalAllocated + capital)
    ensures r.Success? ==>
              var p := r.value.1;
              && p.id == s.partnerCount && p.agent == agent && p.allocatedCapital == capital
              && p.tier == tier && p.active && p.createdAt == now
              && p.totalProfits == 0 && p.profitReports == [] && Ledgered(p)
  {
    match CheckedAddU64(s.totalAllocated, capital)
    case None => Failure(MathOverflow)
    case Some(total) =>
      Success((s.(partnerCount := s.partnerCount + 1, totalAllocated := total),
               PartnerRecord(s.partnerCount, agent, capital, tier, true, now, 0, [])))
  }

  /** `report_profit`: id and activity guards, then the amount is added to
      both the partner's and the syndicate's totals and one report is
      appended. */
  function ReportProfitStep(s: SyndicateRecord, p: PartnerRecord, partnerId: u64, amount: u64,
                            now: i64): (r: Result<(SyndicateRecord, PartnerRecord), AgentError>)
    ensures p.id != partnerId ==> r == Failure(InvalidPartner)
    ensures (p.id == partnerId && !p.active) ==> r == Failure(PartnerInactive)
    ensures (p.id == partnerId && p.active
             && (p.totalProfits + amount > U64Max || s.totalProfits + amount > U64Max))
              ==> r == Failure(MathOverflow)
    ensures r.Success? <==> p.id == partnerId && p.active
                            && p.totalProfits + amount <= U64Max && s.totalProfits + amount <= U64Max
    ensures r.Success? ==> r.value.0 == s.(totalProfits := s.totalProfits + amount)
    ensures r.Success? ==>
              var p' := r.value.1;
              && p'.profitReports == p.profitReports + [ProfitReport(amount, now)]
              && p'.totalProfits == p.totalProfits + amount
              && p'.(totalProfits := p.totalProfits, profitReports := p.profitReports) == p
  {
    if p.id != partnerId then Failure(InvalidPartner)
    else if !p.active then Failure(PartnerInactive)
    else
      match (CheckedAddU64(p.totalProfits, amount), CheckedAddU64(s.totalProfits, amount))
      case (Some(partnerTotal), Some(syndicateTotal)) =>
        Success((s.(totalProfits := syndicateTotal),
                 p.(totalProfits := partnerTotal,
                    profitReports := p.profitReports + [ProfitReport(amount, now)])))
      case _ => Failure(MathOverflow)
  }

  /** `withdraw_capital`: the partner's capital shrinks by the amount and
      the partner goes inactive when none is left. */
  function WithdrawCapitalStep(p: PartnerRecord, partnerId: u64, amount: u64)
    : (r: Result<PartnerRecord, AgentError>)
    ensures p.id != partnerId ==> r == Failure(InvalidPartner)
    ensures (p.id == partnerId && amount > p.allocatedCapital) ==> r == Failure(InsufficientCapital)
    ensures r.Success? <==> p.id == partnerId && amount <= p.allocatedCapital
    ensures r.Success? ==> r.value.allocatedCapital == p.allocatedCapital - amount
    ensures r.Success? ==> (r.value.active <==> p.active && r.value.allocatedCapital != 0)
    ensures r.Success? ==> r.value.(allocatedCapital := p.allocatedCapital, active := p.active) == p
  {
    if p.id != partnerId then Failure(InvalidPartner)
    else if p.allocatedCapital < amount then Failure(InsufficientCapital)
    else
      var remaining := p.allocatedCapital - amount;
      Success(p.(allocatedCapital := remaining, active := if remaining == 0 then false else p.active))
  }

  /** The multiplier of a tier, in percent. */
  function Multiplier(tier: StakingTier): u64 {
    match tier
    case Bronze => 100
    case Silver => 150
    case Gold => 200
    case Platinum => 300
  }

  /** `calculate_reward`: `base * multiplier / 100`, refusing on overflow of
      the product. */
  function CalculateReward(baseReward: u64, tier: StakingTier): (r: Result<u64, AgentError>)
    ensures r.Failure? <==> baseReward * Multiplier(tier) > U64Max
    ensures r.Failure? ==> r.error == MathOverflow
    ensures r.Success? ==> r.value * 100 <= baseReward * Multiplier(tier) < r.value * 100 + 100
    ensures r.Success? ==> baseReward <= r.value <= 3 * baseReward
  {
    match CheckedMulU64(baseReward, Multiplier(tier))
    case None => Failure(MathOverflow)
    case Some(product) => Success(product / 100)
  }

  /** Bronze pays the base reward, Gold twice and Platinum three times it,
      Silver one and a half times rounded down, as long as the product with
      the multiplier fits in 64 bits. */
  lemma RewardPerTier(baseReward: u64)
    ensures baseReward * 100 <= U64Max ==> CalculateReward(baseReward, Bronze) == Success(baseReward)
    ensures baseReward * 150 <= U64Max ==>
              CalculateReward(baseReward, Silver) == Success(baseReward + baseReward / 2)
    ensures baseReward * 200 <= U64Max ==> CalculateReward(baseReward, Gold) == Success(2 * baseReward)
    ensures baseReward * 300 <= U64Max ==> CalculateReward(baseReward, Platinum) == Success(3 * baseReward)
  {
  }

  /** The product is checked before the division, so even Bronze, whose
      reward equals its base, fails for a base above `u64::MAX / 100`. */
  lemma BronzeOverflowsBeforeDividing()
    ensures CalculateReward(U64Max / 100 + 1, Bronze) == Failure(MathOverflow)
  {
  }

  /** The reward formula with the product held in 128 bits, failing only
      when the reward itself does not fit in a `u64`. */
  function CalculateRewardWide(baseReward: u64, tier: StakingTier): (r: Result<u64, AgentError>)
    ensures r.Failure? <==> baseReward * Multiplier(tier) / 100 > U64Max
    ensures r.Failure? ==> r.error == MathOverflow
    ensures r.Success? ==> r.value * 100 <= baseReward * Multiplier(tier) < r.value * 100 + 100
    ensures CalculateReward(baseReward, tier).Success? ==> r == CalculateReward(baseReward, tier)
  {
    var reward := baseReward * Multiplier(tier) / 100;
    if reward <= U64Max then Success(reward) else Failure(MathOverflow)
  }

  /** With the wide product Bronze is the identity on every base, and the
      other tiers fail only where the reward exceeds 64 bits. */
  lemma WideRewardPerTier(baseReward: u64)
    ensures CalculateRewardWide(baseReward, Bronze) == Success(baseReward)
    ensures baseReward * 2 <= U64Max ==> CalculateRewardWide(baseReward, Gold) == Success(2 * baseReward)
    ensures baseReward * 3 <= U64Max ==>
              CalculateRewardWide(baseReward, Platinum) == Success(3 * baseReward)
  {
  }

  /** A higher tier never pays less, and never overflows where a higher
      tier does not. */
  lemma RewardMonotoneInTier(baseReward: u64, low: StakingTier, high: StakingTier)
    requires Multiplier(low) <= Multiplier(high)
    requires CalculateReward(baseReward, high).Success?
    ensures CalculateReward(baseReward, low).Success?
    ensures CalculateReward(baseReward, low).value <= CalculateReward(baseReward, high).value
  {
    MulMonotone(baseReward, Multiplier(low), Multiplier(high));
  }

  /** `total += a` on the end of the list is `Sum + a`. */
  lemma {:induction false} SumOfReportsAppend(reports: seq<ProfitReport>, r: ProfitReport)
    ensures SumOfReports(reports + [r]) == SumOfReports(reports) + r.amount
    decreases |reports|
  {
    if reports != [] {
      assert (reports + [r])[1..] == reports[1..] + [r];
      SumOfReportsAppend(reports[1..], r);
    }
  }

  /** One profit report keeps the partner's total equal to the sum of its
      reports. */
  lemma ReportProfitKeepsLedger(s: SyndicateRecord, p: PartnerRecord, partnerId: u64,
                                amount: u64, now: i64)
    requires Ledgered(p)
    ensures var r := ReportProfitStep(s, p, partnerId, amount, now);
            r.Success? ==> Ledgered(r.value.1)
  {
    SumOfReportsAppend(p.profitReports, ProfitReport(amount, now));
  }

  /** An instruction that touches one partner account. */
  datatype PartnerCall =
    | ReportCall(partnerId: u64, amount: u64, now: i64)
    | WithdrawCall(partnerId: u64, amount: u64)

  /** The syndicate and partner after one call; a failing call reverts. */
  function ApplyPartnerCall(s: SyndicateRecord, p: PartnerRecord, c: PartnerCall)
    : (SyndicateRecord, PartnerRecord)
  {
    match c
    case ReportCall(id, amount, now) =>
      var r := ReportProfitStep(s, p, id, amount, now);
      if r.Success? then r.value else (s, p)
    case WithdrawCall(id, amount) =>
      var r := WithdrawCapitalStep(p, id, amount);
      if r.Success? then (s, r.value) else (s, p)
  }

  /** The syndicate and partner after a sequence of calls, in order. */
  function ReplayPartner(s: SyndicateRecord, p: PartnerRecord, calls: seq<PartnerCall>)
    : (SyndicateRecord, PartnerRecord)
    decreases |calls|
  {
    if calls == [] then (s, p)
    else
      var (s', p') := ApplyPartnerCall(s, p, calls[0]);
      ReplayPartner(s', p', calls[1..])
  }

  /** Over any sequence of reports and withdrawals the partner's total stays
      the sum of its reports, and reports are only ever appended. */
  lemma {:induction false} ReplayKeepsLedger(s: SyndicateRecord, p: PartnerRecord,
                                             calls: seq<PartnerCall>)
    requires Ledgered(p)
    ensures Ledgered(ReplayPartner(s, p, calls).1)
    ensures p.profitReports <= ReplayPartner(s, p, calls).1.profitReports
    decreases |calls|
  {
    if calls != [] {
      var (s', p') := ApplyPartnerCall(s, p, calls[0]);
      if calls[0].ReportCall? {
        ReportProfitKeepsLedger(s, p, calls[0].partnerId, calls[0].amount, calls[0].now);
      }
      ReplayKeepsLedger(s', p', calls[1..]);
    }
  }

  /** Deactivation is permanent: an inactive partner never becomes active
      again and accepts no further profit reports. */
  lemma {:induction false} InactiveStaysInactive(s: SyndicateRecord, p: PartnerRecord,
                                                 calls: seq<PartnerCall>)
    requires !p.active
    ensures !ReplayPartner(s, p, calls).1.active
    ensures ReplayPartner(s, p, calls).1.profitReports == p.profitReports
    ensures ReplayPartner(s, p, calls).0 == s
    decreases |calls|
  {
    if calls != [] {
      var (s', p') := ApplyPartnerCall(s, p, calls[0]);
      InactiveStaysInactive(s', p', calls[1..]);
    }
  }

  /** The syndicate account. */
  class Syndicate {
    var authority: Pubkey
    var partnerCount: u64
    var totalAllocated: u64
    var totalProfits: u64

    function State(): SyndicateRecord
      reads this
    {
      SyndicateRecord(authority, partnerCount, totalAllocated, totalProfits)
    }

    /** `initialize_syndicate` */
    constructor Initialize(authority: Pubkey)
      ensures State() == SyndicateRecord(authority, 0, 0, 0)
    {
      this.authority := authority;
      partnerCount := 0;
      totalAllocated := 0;
      totalProfits := 0;
    }

    /** `add_partner`: creates the partner account. */
    method AddPartner(agent: Pubkey, capital: u64, tier: StakingTier, now: i64)
      returns (r: Result<(Partner, Event), AgentError>)
      requires partnerCount < U64Max
      modifies this`partnerCount, this`totalAllocated
      ensures var step := AddPartnerStep(old(State()), agent, capital, tier, now);
              && (step.Failure? ==> r == Failure(step.error) && State() == old(State()))
              && (step.Success? ==> r.Success? && fresh(r.value.0)
                                    && State() == step.value.0 && r.value.0.State() == step.value.1
                                    && r.value.1 == PartnerAdded(old(partnerCount), agent, capital))
    {
      var total := CheckedAddU64(totalAllocated, capital);
      if total.None? {
        return Failure(MathOverflow);
      }
      var partner := new Partner.Create(partnerCount, agent, capital, tier, now);
      totalAllocated := total.value;
      partnerCount := partnerCount + 1;
      r := Success((partner, PartnerAdded(partner.id, agent, capital)));
    }

    /** `distribute_weekly_rewards`: checks that there are partners and a
        non-empty pool; it changes no account. */
    method DistributeWeeklyRewards(totalRewardPool: u64, now: i64)
      returns (r: Result<Event, AgentError>)
      ensures partnerCount == 0 ==> r == Failure(NoPartners)
      ensures (partnerCount > 0 && totalRewardPool == 0) ==> r == Failure(InvalidAmount)
      ensures r.Success? <==> partnerCount > 0 && totalRewardPool > 0
      ensures r.Success? ==> r.value == WeeklyRewardsDistributed(totalRewardPool, partnerCount, now)
    {
      if partnerCount == 0 {
        return Failure(NoPartners);
      }
      if totalRewardPool == 0 {
        return Failure(InvalidAmount);
      }
      var rewardPerPartner := totalRewardPool / partnerCount;
      r := Success(WeeklyRewardsDistributed(totalRewardPool, partnerCount, now));
    }
  }

  /** A partner account. */
  class Partner {
    var id: u64
    var agent: Pubkey
    var allocatedCapital: u64
    var tier: StakingTier
    var active: bool
    var createdAt: i64
    var totalProfits: u64
    var profitReports: seq<ProfitReport>

    function State(): PartnerRecord
      reads this
    {
      PartnerRecord(id, agent, allocatedCapital, tier, active, createdAt, totalProfits, profitReports)
    }

    /** The field writes of `add_partner` on the freshly created account. */
    constructor Create(id: u64, agent: Pubkey, capital: u64, tier: StakingTier, now: i64)
      ensures State() == PartnerRecord(id, agent, capital, tier, true, now, 0, [])
    {
      this.id := id;
      this.agent := agent;
      allocatedCapital := capital;
      this.tier := tier;
      active := true;
      createdAt := now;
      totalProfits := 0;
      profitReports := [];
    }

    /** `report_profit` against `syndicate`. */
    method ReportProfit(syndicate: Syndicate, partnerId: u64, amount: u64, now: i64)
      returns (r: Result<Event, AgentError>)
      modifies this`totalProfits, this`profitReports, syndicate`totalProfits
      ensures var step := ReportProfitStep(old(syndicate.State()), old(State()), partnerId, amount, now);
              && (step.Failure? ==> r == Failure(step.error)
                                    && State() == old(State()) && syndicate.State() == old(syndicate.State()))
              && (step.Success? ==> syndicate.State() == step.value.0 && State() == step.value.1
                                    && r == Success(ProfitReported(partnerId, amount, totalProfits)))
    {
      if id != partnerId {
        return Failure(InvalidPartner);
      }
      if !active {
        return Failure(PartnerInactive);
      }
      var partnerTotal := CheckedAddU64(totalProfits, amount);
      if partnerTotal.None? {
        return Failure(MathOverflow);
      }
      var syndicateTotal := CheckedAddU64(syndicate.totalProfits, amount);
      if syndicateTotal.None? {
        return Failure(MathOverflow);
      }
      totalProfits := partnerTotal.value;
      syndicate.totalProfits := syndicateTotal.value;
      profitReports := profitReports + [ProfitReport(amount, now)];
      r := Success(ProfitReported(partnerId, amount, totalProfits));
    }

    /** `withdraw_capital`; the syndicate's `total_allocated` is not touched. */
    method WithdrawCapital(partnerId: u64, amount: u64) returns (r: Result<Event, AgentError>)
      modifies this`allocatedCapital, this`active
      ensures var step := WithdrawCapitalStep(old(State()), partnerId, amount);
              && (step.Failure? ==> r == Failure(step.error) && State() == old(State()))
              && (step.Success? ==> State() == step.value
                                    && r == Success(CapitalWithdrawn(partnerId, amount, allocatedCapital)))
    {
      if id != partnerId {
        return Failure(InvalidPartner);
      }
      if allocatedCapital < amount {
        return Failure(InsufficientCapital);
      }
      allocatedCapital := allocatedCapital - amount;
      if allocatedCapital == 0 {
        active := false;
      }
      r := Success(CapitalWithdrawn(partnerId, amount, allocatedCapital));
    }
  }
}
