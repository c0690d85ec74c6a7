/** The fee-collector program: a percentage fee accrued on each trade,
    withdrawals that move fees from "collected" to "withdrawn", and a
    bounded update of the percentage. */
module FeeCollector {
  import opened Solana

  datatype FeeError = InsufficientFees | MathOverflow | InvalidPercentage

  datatype Event =
    | FeeRecorded(tradeAmount: u64, feeAmount: u64, totalCollected: u64, timestamp: i64)
    | FeesWithdrawn(amount: u64, timestamp: i64, treasury: Pubkey)
    | FeePercentageUpdated(oldPercentage: u64, newPercentage: u64, timestamp: i64)

  /** The fields of the fee-collector account, as a value. */
  datatype FeeRecord = FeeRecord(
    authority: Pubkey,
    treasuryWallet: Pubkey,
    feePercentage: u64,
    totalFeesCollected: u64,
    totalWithdrawn: u64)

  /** `trade_amount * fee_percentage / 100`, refusing when the product
      overflows 64 bits. */
  function FeeAmount(tradeAmount: u64, feePercentage: u64): (r: Result<u64, FeeError>)
    ensures r.Failure? <==> tradeAmount * feePercentage > U64Max
    ensures r.Failure? ==> r.error == MathOverflow
    ensures r.Success? ==> r.value * 100 <= tradeAmount * feePercentage < r.value * 100 + 100
  {
    match CheckedMulU64(tradeAmount, feePercentage)
    case None => Failure(MathOverflow)
    case Some(product) => Success(product / 100)
  }

  /** With a percentage of at most 100 the fee never exceeds the trade. */
  lemma FeeAtMostTrade(tradeAmount: u64, feePercentage: u64)
    ensures (feePercentage <= 100 && FeeAmount(tradeAmount, feePercentage).Success?)
              ==> FeeAmount(tradeAmount, feePercentage).value <= tradeAmount
  {
    if feePercentage <= 100 && FeeAmount(tradeAmount, feePercentage).Success? {
      MulMonotone(tradeAmount, feePercentage, 100);
    }
  }

  /** `initialize_fee_collector` stores any percentage. Above 100 there is a
      trade (100, or 1 when `100 * p` overflows) whose recorded fee exceeds
      the trade itself. */
  lemma UncheckedInitialPercentage(authority: Pubkey, treasury: Pubkey, pct: u64)
    requires pct > 100
    ensures var f := FeeRecord(authority, treasury, pct, 0, 0);
            var trade: u64 := if 100 * pct <= U64Max then 100 else 1;
            && RecordFeeStep(f, trade).Success?
            && RecordFeeStep(f, trade).value.totalFeesCollected > trade
  {
    if 100 * pct <= U64Max {
      assert FeeAmount(100, pct) == Success(pct);
    } else {
      assert FeeAmount(1, pct) == Success(pct / 100);
    }
  }

  /** `record_fee` */
  function RecordFeeStep(f: FeeRecord, tradeAmount: u64): (r: Result<FeeRecord, FeeError>)
    ensures r.Failure? <==> FeeAmount(tradeAmount, f.feePercentage).Failure?
                            || f.totalFeesCollected + FeeAmount(tradeAmount, f.feePercentage).value > U64Max
    ensures r.Failure? ==> r.error == MathOverflow
    ensures r.Success? ==>
              r.value == f.(totalFeesCollected := f.totalFeesCollected
                                                  + FeeAmount(tradeAmount, f.feePercentage).value)
    ensures (r.Success? && f.feePercentage <= 100) ==>
              r.value.totalFeesCollected <= f.totalFeesCollected + tradeAmount
  {
    match FeeAmount(tradeAmount, f.feePercentage)
    case Failure(e) => Failure(e)
    case Success(fee) =>
      FeeAtMostTrade(tradeAmount, f.feePercentage);
      match CheckedAddU64(f.totalFeesCollected, fee)
      case None => Failure(MathOverflow)
      case Some(total) => Success(f.(totalFeesCollected := total))
  }

  /** `withdraw_fees`: moves the amount from collected to withdrawn. */
  function WithdrawFeesStep(f: FeeRecord, amount: u64): (r: Result<FeeRecord, FeeError>)
    ensures amount > f.totalFeesCollected ==> r == Failure(InsufficientFees)
    ensures (amount <= f.totalFeesCollected && f.totalWithdrawn + amount > U64Max)
              ==> r == Failure(MathOverflow)
    ensures r.Success? <==> amount <= f.totalFeesCollected && f.totalWithdrawn + amount <= U64Max
    ensures r.Success? ==> r.value.totalFeesCollected == f.totalFeesCollected - amount
    ensures r.Success? ==> r.value.totalWithdrawn == f.totalWithdrawn + amount
    ensures r.Success? ==> r.value.totalFeesCollected + r.value.totalWithdrawn
                           == f.totalFeesCollected + f.totalWithdrawn
    ensures r.Success? ==>
              r.value.(totalFeesCollected := f.totalFeesCollected, totalWithdrawn := f.totalWithdrawn) == f
  {
    if f.totalFeesCollected < amount then Failure(InsufficientFees)
    else
      match CheckedAddU64(f.totalWithdrawn, amount)
      case None => Failure(MathOverflow)
      case Some(withdrawn) =>
        Success(f.(totalFeesCollected := f.totalFeesCollected - amount, totalWithdrawn := withdrawn))
  }

  /** `update_fee_percentage`: accepts only `0 < p <= 100`. */
  function UpdateFeePercentageStep(f: FeeRecord, newPercentage: u64): (r: Result<FeeRecord, FeeError>)
    ensures r.Success? <==> 0 < newPercentage <= 100
    ensures r.Failure? ==> r.error == InvalidPercentage
    ensures r.Success? ==> r.value.feePercentage == newPercentage
    ensures r.Success? ==> r.value.(feePercentage := f.feePercentage) == f
  {
    if newPercentage > 0 && newPercentage <= 100 then Success(f.(feePercentage := newPercentage))
    else Failure(InvalidPercentage)
  }

  /** One instruction that writes the fee-collector account. */
  datatype FeeCall = RecordCall(tradeAmount: u64) | WithdrawCall(amount: u64) | UpdateCall(percentage: u64)

  function StepOf(f: FeeRecord, c: FeeCall): Result<FeeRecord, FeeError> {
    match c
    case RecordCall(t) => RecordFeeStep(f, t)
    case WithdrawCall(a) => WithdrawFeesStep(f, a)
    case UpdateCall(p) => UpdateFeePercentageStep(f, p)
  }

  /** The account after one call; a failing call reverts. */
  function ApplyFeeCall(f: FeeRecord, c: FeeCall): FeeRecord {
    var r := StepOf(f, c);
    if r.Success? then r.value else f
  }

  /** The account after a sequence of calls, in order. */
  function ReplayFees(f: FeeRecord, calls: seq<FeeCall>): FeeRecord
    decreases |calls|
  {
    if calls == [] then f else ReplayFees(ApplyFeeCall(f, calls[0]), calls[1..])
  }

  /** The fees recorded by the successful `record_fee` calls of a sequence. */
  function FeesRecorded(f: FeeRecord, calls: seq<FeeCall>): nat
    decreases |calls|
  {
    if calls == [] then 0
    else
      var fee := if calls[0].RecordCall? && StepOf(f, calls[0]).Success?
                 then FeeAmount(calls[0].tradeAmount, f.feePercentage).value else 0;
      fee + FeesRecorded(ApplyFeeCall(f, calls[0]), calls[1..])
  }

  /** Conservation: collected plus withdrawn grows by exactly the fees
      recorded, whatever withdrawals and updates come in between; the
      withdrawn total never shrinks. */
  lemma {:induction false} ReplayConservesFees(f: FeeRecord, calls: seq<FeeCall>)
    ensures var f' := ReplayFees(f, calls);
            f'.totalFeesCollected + f'.totalWithdrawn
              == f.totalFeesCollected + f.totalWithdrawn + FeesRecorded(f, calls)
    ensures ReplayFees(f, calls).totalWithdrawn >= f.totalWithdrawn
    decreases |calls|
  {
    if calls != [] {
      ReplayConservesFees(ApplyFeeCall(f, calls[0]), calls[1..]);
    }
  }

  /** Once the percentage is in `1..=100` no instruction takes it out, so
      from then on every recorded fee is at most its trade. */
  lemma {:induction false} ValidPercentageStaysValid(f: FeeRecord, calls: seq<FeeCall>)
    requires 0 < f.feePercentage <= 100
    ensures 0 < ReplayFees(f, calls).feePercentage <= 100
    decreases |calls|
  {
    if calls != [] {
      ValidPercentageStaysValid(ApplyFeeCall(f, calls[0]), calls[1..]);
    }
  }

  /** The fee-collector account. */
  class FeeCollector {
    var authority: Pubkey
    var treasuryWallet: Pubkey
    var feePercentage: u64
    var totalFeesCollected: u64
    var totalWithdrawn: u64

    function State(): FeeRecord
      reads this
    {
      FeeRecord(authority, treasuryWallet, feePercentage, totalFeesCollected, totalWithdrawn)
    }

    /** `initialize_fee_collector`; the percentage is stored unchecked. */
    constructor Initialize(authority: Pubkey, treasuryWallet: Pubkey, feePercentage: u64)
      ensures State() == FeeRecord(authority, treasuryWallet, feePercentage, 0, 0)
    {
      this.authority := authority;
      this.treasuryWallet := treasuryWallet;
      this.feePercentage := feePercentage;
      totalFeesCollected := 0;
      totalWithdrawn := 0;
    }

    /** `record_fee` */
    method RecordFee(tradeAmount: u64, now: i64) returns (r: Result<Event, FeeError>)
      modifies this`totalFeesCollected
      ensures var step := RecordFeeStep(old(State()), tradeAmount);
              && (step.Failure? ==> r == Failure(step.error) && State() == old(State()))
              && (step.Success? ==> State() == step.value && r.Success?)
      ensures r.Success? ==>
                r.value == FeeRecorded(tradeAmount, FeeAmount(tradeAmount, feePercentage).value,
                                       totalFeesCollected, now)
    {
      var product := CheckedMulU64(tradeAmount, feePercentage);
      if product.None? {
        return Failure(MathOverflow);
      }
      var feeAmount := product.value / 100;
      var total := CheckedAddU64(totalFeesCollected, feeAmount);
      if total.None? {
        return Failure(MathOverflow);
      }
      totalFeesCollected := total.value;
      r := Success(FeeRecorded(tradeAmount, feeAmount, totalFeesCollected, now));
    }

    /** `withdraw_fees` */
    method WithdrawFees(amount: u64, now: i64) returns (r: Result<Event, FeeError>)
      modifies this`totalFeesCollected, this`totalWithdrawn
      ensures var step := WithdrawFeesStep(old(State()), amount);
              && (step.Failure? ==> r == Failure(step.error) && State() == old(State()))
              && (step.Success? ==> State() == step.value
                                    && r == Success(FeesWithdrawn(amount, now, treasuryWallet)))
    {
      if totalFeesCollected < amount {
        return Failure(InsufficientFees);
      }
      var withdrawn := CheckedAddU64(totalWithdrawn, amount);
      if withdrawn.None? {
        return Failure(MathOverflow);
      }
      totalFeesCollected := totalFeesCollected - amount;
      totalWithdrawn := withdrawn.value;
      r := Success(FeesWithdrawn(amount, now, treasuryWallet));
    }

    /** `update_fee_percentage` */
    method UpdateFeePercentage(newPercentage: u64, now: i64) returns (r: Result<Event, FeeError>)
      modifies this`feePercentage
      ensures var step := UpdateFeePercentageStep(old(State()), newPercentage);
              && (step.Failure? ==> r == Failure(step.error) && State() == old(State()))
              && (step.Success? ==>
                    State() == step.value
                    && r == Success(FeePercentageUpdated(old(feePercentage), newPercentage, now)))
    {
      if !(newPercentage > 0 && newPercentage <= 100) {
        return Failure(InvalidPercentage);
      }
      var oldPercentage := feePercentage;
      feePercentage := newPercentage;
      r := Success(FeePercentageUpdated(oldPercentage, newPercentage, now));
    }

    /** `get_fee_balance`: the collected, not yet withdrawn, fees. */
    method GetFeeBalance() returns (balance: u64)
      ensures balance == totalFeesCollected
    {
      balance := totalFeesCollected;
    }
  }
}
