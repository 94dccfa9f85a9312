/** Parking fees: whole minutes, rounded up to 30-minute blocks. */
module Fees {
  import opened Ledgers

  const MINUTES_PER_BLOCK := 30
  const FEE_QUOTE_TTL_SECONDS := 15 * 60

  /** int(seconds / 60) truncates toward zero, so the last minute before entry still counts as minute 0. */
  function TruncatedMinutes(seconds: int): int {
    if seconds >= 0 then seconds / 60 else -(-seconds / 60)
  }

  datatype FeeResult = InvalidCurrentTime | Fee(amount: int, duration: int)

  function Calculate(rate: nat, entry: Time, current: Time): FeeResult {
    var minutes := TruncatedMinutes(current - entry);
    if minutes < 0 then InvalidCurrentTime
    else Fee((minutes + MINUTES_PER_BLOCK - 1) / MINUTES_PER_BLOCK * rate, minutes)
  }

  /** The fee is defined from one minute before entry on. */
  lemma FeeDefined(rate: nat, entry: Time, current: Time)
    ensures Calculate(rate, entry, current).Fee? <==> current > entry - 60
  {
  }

  /** A block is charged exactly when one of its minutes has been completed: the fee pays for n blocks
      if and only if between 30(n-1)+1 and 30n whole minutes have passed. */
  lemma FeeBlocks(rate: nat, entry: Time, current: Time, n: nat)
    requires current > entry - 60 && rate > 0
    ensures Calculate(rate, entry, current).amount == n * rate <==>
            (if n == 0 then current - entry < 60
             else entry + 60 * (30 * (n - 1) + 1) <= current < entry + 60 * (30 * n + 1))
  {
    var minutes := TruncatedMinutes(current - entry);
    var blocks := (minutes + MINUTES_PER_BLOCK - 1) / MINUTES_PER_BLOCK;
    SameMultiple(blocks, n, rate);
  }

  /** Every fee is a whole number of blocks. */
  lemma FeeIsBlocks(rate: nat, entry: Time, current: Time) returns (n: nat)
    requires current > entry - 60
    ensures Calculate(rate, entry, current).amount == n * rate
    ensures if n == 0 then current - entry < 60 else entry + 60 * (30 * (n - 1) + 1) <= current < entry + 60 * (30 * n + 1)
  {
    n := (TruncatedMinutes(current - entry) + MINUTES_PER_BLOCK - 1) / MINUTES_PER_BLOCK;
  }

  /** The duration is the number of whole minutes since entry. */
  lemma FeeDuration(rate: nat, entry: Time, current: Time)
    requires current > entry - 60
    ensures var d := Calculate(rate, entry, current).duration;
            0 <= d && current < entry + 60 * (d + 1) && (d > 0 ==> entry + 60 * d <= current)
  {
  }

  lemma SameMultiple(a: int, b: int, rate: nat)
    requires rate > 0
    ensures a * rate == b * rate <==> a == b
  {
    if a < b {
      MultipleMonotone(a + 1, b, rate);
    } else if b < a {
      MultipleMonotone(b + 1, a, rate);
    }
  }

  lemma MultipleMonotone(a: int, b: int, rate: nat)
    requires a <= b
    ensures a * rate <= b * rate
  {
    assert (b - a) * rate >= 0;
  }

  /** A quote that is at most its time-to-live old is never above the present fee and never more than one
      block's price below it. The bound is for any clock readings, also just before entry. */
  lemma StalenessBound(rate: nat, entry: Time, quoted: Time, paid: Time)
    requires Calculate(rate, entry, quoted).Fee?
    requires quoted <= paid < quoted + 900
    ensures Calculate(rate, entry, paid).Fee?
    ensures Calculate(rate, entry, paid).amount - rate <= Calculate(rate, entry, quoted).amount <= Calculate(rate, entry, paid).amount
  {
    var before := (TruncatedMinutes(quoted - entry) + MINUTES_PER_BLOCK - 1) / MINUTES_PER_BLOCK;
    var after := (TruncatedMinutes(paid - entry) + MINUTES_PER_BLOCK - 1) / MINUTES_PER_BLOCK;
    assert before <= after <= before + 1;
    MultipleMonotone(before, after, rate);
    MultipleMonotone(after, before + 1, rate);
    assert (before + 1) * rate == before * rate + rate;
  }
}
