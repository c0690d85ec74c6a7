/** The brain program: a profit-and-loss accumulator guarded by a one-way
    circuit breaker, and a four-step evolution ladder. */
module Brain {
  import opened Solana

  datatype EvolutionTier = Cellular | Sentient | Superintelligent | Godlike

  datatype BrainError = BrainFrozen | MathOverflow

  /** A partnership account; written once, when it is created. */
  datatype Partnership = Partnership(agent: Pubkey, allocatedCapital: u64, active: bool, createdAt: i64)

  datatype Event =
    | CircuitBreakerTriggered(pnlBalance: i64, timestamp: i64)
    | PartnershipProposed(agent: Pubkey, capital: u64)
    | TierEvolved(newTier: EvolutionTier, timestamp: i64)
    | BrainUnfrozen(timestamp: i64)

  /** The fields of the brain-state account, as a value. */
  datatype BrainRecord = BrainRecord(
    mint: Pubkey,
    authority: Pubkey,
    pnlBalance: i64,
    pnlLimit: i64,
    frozen: bool,
    evolutionTier: EvolutionTier,
    lastUpdated: i64)

  /** Position of a tier on the ladder. */
  function Rank(t: EvolutionTier): nat {
    match t
    case Cellular => 0
    case Sentient => 1
    case Superintelligent => 2
    case Godlike => 3
  }

  /** The tier `evolve_tier` moves to: one rung up, Godlike staying put. */
  function NextTier(t: EvolutionTier): (r: EvolutionTier)
    ensures Rank(r) == if Rank(t) < 3 then Rank(t) + 1 else 3
    ensures t == Godlike <==> r == t
  {
    match t
    case Cellular => Sentient
    case Sentient => Superintelligent
    case Superintelligent => Godlike
    case Godlike => Godlike
  }

  /** The tier after `n` evolutions. */
  function EvolveTimes(t: EvolutionTier, n: nat): EvolutionTier
    decreases n
  {
    if n == 0 then t else EvolveTimes(NextTier(t), n - 1)
  }

  /** `n` evolutions climb `n` rungs, stopping at the top. */
  lemma {:induction false} EvolveTimesRank(t: EvolutionTier, n: nat)
    ensures Rank(EvolveTimes(t, n)) == if Rank(t) + n < 3 then Rank(t) + n else 3
    decreases n
  {
    if n > 0 {
      EvolveTimesRank(NextTier(t), n - 1);
    }
  }

  /** Three evolutions from any tier reach Godlike, and further ones keep it. */
  lemma ThreeEvolutionsReachGodlike(t: EvolutionTier, n: nat)
    requires n >= 3
    ensures EvolveTimes(t, n) == Godlike
    ensures NextTier(EvolveTimes(t, n)) == EvolveTimes(t, n)
  {
    EvolveTimesRank(t, n);
  }

  /** `report_pnl`: refused while frozen; otherwise the amount is added with
      `i64` overflow checking and the breaker trips below the limit. */
  function ReportPnlStep(b: BrainRecord, amount: i64, now: i64): (r: Result<BrainRecord, BrainError>)
    ensures b.frozen ==> r == Failure(BrainFrozen)
    ensures (!b.frozen && !(I64Min <= b.pnlBalance + amount <= I64Max)) ==> r == Failure(MathOverflow)
    ensures r.Success? <==> !b.frozen && I64Min <= b.pnlBalance + amount <= I64Max
    ensures r.Success? ==> r.value.pnlBalance == b.pnlBalance + amount
    ensures r.Success? ==> (r.value.frozen <==> r.value.pnlBalance < b.pnlLimit)
    ensures r.Success? ==> r.value.lastUpdated == now
    ensures r.Success? ==>
              r.value.(pnlBalance := b.pnlBalance, frozen := b.frozen, lastUpdated := b.lastUpdated) == b
  {
    if b.frozen then Failure(BrainFrozen)
    else
      match CheckedAddI64(b.pnlBalance, amount)
      case None => Failure(MathOverflow)
      case Some(balance) =>
        Success(b.(pnlBalance := balance,
                   frozen := if balance < b.pnlLimit then true else b.frozen,
                   lastUpdated := now))
  }

  /** One instruction that writes the brain-state account. */
  datatype BrainCall = ReportPnlCall(amount: i64, now: i64) | EvolveCall | UnfreezeCall

  /** The brain state after one call; a failing call reverts. */
  function ApplyBrainCall(b: BrainRecord, c: BrainCall): BrainRecord {
    match c
    case ReportPnlCall(amount, now) =>
      var r := ReportPnlStep(b, amount, now);
      if r.Success? then r.value else b
    case EvolveCall => b.(evolutionTier := NextTier(b.evolutionTier))
    case UnfreezeCall => b.(frozen := false)
  }

  /** The brain state after a sequence of calls, in order. */
  function ReplayBrain(b: BrainRecord, calls: seq<BrainCall>): BrainRecord
    decreases |calls|
  {
    if calls == [] then b else ReplayBrain(ApplyBrainCall(b, calls[0]), calls[1..])
  }

  /** The circuit breaker is one-way: once frozen, only `unfreeze_brain`
      clears it, and until then the balance and its timestamp stay put. */
  lemma {:induction false} FrozenUntilUnfrozen(b: BrainRecord, calls: seq<BrainCall>)
    requires b.frozen
    requires forall i :: 0 <= i < |calls| ==> calls[i] != UnfreezeCall
    ensures var b' := ReplayBrain(b, calls);
            b'.frozen && b'.pnlBalance == b.pnlBalance && b'.lastUpdated == b.lastUpdated
    decreases |calls|
  {
    if calls != [] {
      assert calls[0] != UnfreezeCall;
      var rest := calls[1..];
      assert forall i :: 0 <= i < |rest| ==> rest[i] == calls[i + 1];
      FrozenUntilUnfrozen(ApplyBrainCall(b, calls[0]), rest);
    }
  }

  /** No instruction changes the mint, the authority or the limit. */
  lemma {:induction false} ReplayKeepsConfiguration(b: BrainRecord, calls: seq<BrainCall>)
    ensures var b' := ReplayBrain(b, calls);
            b'.mint == b.mint && b'.authority == b.authority && b'.pnlLimit == b.pnlLimit
    decreases |calls|
  {
    if calls != [] {
      ReplayKeepsConfiguration(ApplyBrainCall(b, calls[0]), calls[1..]);
    }
  }

  /** The brain-state account. */
  class BrainState {
    var mint: Pubkey
    var authority: Pubkey
    var pnlBalance: i64
    var pnlLimit: i64
    var frozen: bool
    var evolutionTier: EvolutionTier
    var lastUpdated: i64

    function State(): BrainRecord
      reads this
    {
      BrainRecord(mint, authority, pnlBalance, pnlLimit, frozen, evolutionTier, lastUpdated)
    }

    /** `initialize_brain` */
    constructor Initialize(mint: Pubkey, authority: Pubkey, pnlLimit: i64, now: i64)
      ensures State() == BrainRecord(mint, authority, 0, pnlLimit, false, Cellular, now)
    {
      this.mint := mint;
      this.authority := authority;
      pnlBalance := 0;
      frozen := false;
      evolutionTier := Cellular;
      this.pnlLimit := pnlLimit;
      lastUpdated := now;
    }

    /** `report_pnl`; emits an event when the breaker trips. */
    method ReportPnl(amount: i64, now: i64) returns (r: Result<Option<Event>, BrainError>)
      modifies this`pnlBalance, this`frozen, this`lastUpdated
      ensures var step := ReportPnlStep(old(State()), amount, now);
              && (step.Failure? ==> r == Failure(step.error) && State() == old(State()))
              && (step.Success? ==> State() == step.value && r.Success?)
      ensures r.Success? ==> r.value == if frozen then Some(CircuitBreakerTriggered(pnlBalance, now))
                                        else None
    {
      if frozen {
        return Failure(BrainFrozen);
      }
      var balance := CheckedAddI64(pnlBalance, amount);
      if balance.None? {
        return Failure(MathOverflow);
      }
      pnlBalance := balance.value;
      var event := None;
      if pnlBalance < pnlLimit {
        frozen := true;
        event := Some(CircuitBreakerTriggered(pnlBalance, now));
      }
      lastUpdated := now;
      r := Success(event);
    }

    /** `propose_partnership`: refused while frozen; creates the partnership
        account and leaves the brain state as it is. */
    method ProposePartnership(agent: Pubkey, capital: u64, now: i64)
      returns (r: Result<(Partnership, Event), BrainError>)
      ensures frozen ==> r == Failure(BrainFrozen)
      ensures !frozen ==> r.Success?
      ensures r.Success? ==> r.value.0 == Partnership(agent, capital, true, now)
      ensures r.Success? ==> r.value.1 == PartnershipProposed(agent, capital)
    {
      if frozen {
        return Failure(BrainFrozen);
      }
      var partnership := Partnership(agent, capital, true, now);
      r := Success((partnership, PartnershipProposed(agent, capital)));
    }

    /** `evolve_tier`; does not look at the frozen flag. */
    method EvolveTier(now: i64) returns (event: Event)
      modifies this`evolutionTier
      ensures State() == old(State()).(evolutionTier := NextTier(old(evolutionTier)))
      ensures event == TierEvolved(evolutionTier, now)
    {
      evolutionTier := NextTier(evolutionTier);
      event := TierEvolved(evolutionTier, now);
    }

    /** `unfreeze_brain`: clears the flag and nothing else. */
    method UnfreezeBrain(now: i64) returns (event: Event)
      modifies this`frozen
      ensures State() == old(State()).(frozen := false)
      ensures event == BrainUnfrozen(now)
    {
      frozen := false;
      event := BrainUnfrozen(now);
    }
  }
}
