/** Fixed-width integers and the two pricing rules of the launch_fund program.
    Rust's `u64` is `U64` here; an arithmetic step whose exact value leaves the
    `u64` range is a panic of the program (the transaction aborts), which the
    functions report as `None`. */
module Pricing {

  const U64_MAX: nat := 0xFFFF_FFFF_FFFF_FFFF

  /** Rust's `u64`. */
  type U64 = n: nat | n <= U64_MAX

  datatype Option<T> = None | Some(value: T)

  /** Lamports per SOL. The base issuance is 1000 token units per lamport,
      10^12 per SOL. */
  const LAMPORTS_PER_SOL: nat := 1_000_000_000

  /** While the raised total, net of withdrawals, is below this (ten SOL), a
      contribution earns the 20% bonus. */
  const BONUS_CAP: nat := 10_000_000_000

  /** Token units issued per lamport without and with the bonus. */
  const BASE_RATE: nat := 1000
  const BONUS_RATE: nat := 1200

  /** The largest contribution whose first product `sol_amount * 1_000_000_000`
      still fits in a `u64`. */
  const MAX_PRICED_AMOUNT: nat := U64_MAX / LAMPORTS_PER_SOL

  /** Token units per lamport for a contribution made when `raised` lamports were already raised. */
  function RateAt(raised: nat): nat
  {
    if raised < BONUS_CAP then BONUS_RATE else BASE_RATE
  }

  /** `calculate_tokens_from_sol`: the three u64 steps of the source, each
      aborting when its exact value does not fit. Whenever it succeeds the
      divisions are exact, so the result is the amount times the rate in force. */
  function CalculateTokensFromSol(solAmount: U64, currentRaised: U64): (r: Option<U64>)
    ensures r.None? <==> solAmount > MAX_PRICED_AMOUNT
    ensures r.Some? ==> r.value == solAmount * RateAt(currentRaised)
  {
    var scaled := solAmount * 1_000_000_000;
    if scaled > U64_MAX then None
    else
      var baseTokens := scaled / 1_000_000;
      var bonusRate := if currentRaised < BONUS_CAP then 120 else 100;
      var product := baseTokens * bonusRate;
      // Once the first product fits, `base_tokens * bonus_rate` cannot overflow.
      ExactScaling(solAmount, bonusRate);
      Some(product / 100)
  }

  /** The arithmetic facts behind `CalculateTokensFromSol`: the scaled amount
      divides back exactly, the second product cannot overflow once the first
      fits, and the final division by 100 is exact. */
  lemma ExactScaling(a: nat, bonusRate: nat)
    requires bonusRate == 120 || bonusRate == 100
    ensures (a * 1_000_000_000) / 1_000_000 == a * 1000
    ensures a * 1_000_000_000 <= U64_MAX ==> (a * 1000) * bonusRate <= U64_MAX
    ensures ((a * 1000) * bonusRate) / 100 == a * (bonusRate * 10)
  {
    assert a * 1_000_000_000 == (a * 1000) * 1_000_000;
    assert (a * 1000) * bonusRate == (a * (bonusRate * 10)) * 100;
    if a * 1_000_000_000 <= U64_MAX {
      assert (a * 1000) * bonusRate <= (a * 1000) * 1_000_000;
    }
  }

  /** `calculate_token_price`: a step price of 1000 lamports per token, one
      more step for every full SOL raised. It never overflows. */
  function CalculateTokenPrice(raisedAmount: U64): (price: U64)
    ensures price >= BASE_RATE
    ensures raisedAmount < LAMPORTS_PER_SOL ==> price == BASE_RATE
    ensures price % BASE_RATE == 0
  {
    var multiplier := 1 + raisedAmount / LAMPORTS_PER_SOL;
    assert multiplier <= 1 + U64_MAX / LAMPORTS_PER_SOL;
    1000 * multiplier
  }

  /** The price is a step function: `price / 1000 - 1` is the number of whole SOL raised. */
  lemma TokenPriceSteps(raisedAmount: U64, steps: nat)
    requires steps * LAMPORTS_PER_SOL <= raisedAmount < (steps + 1) * LAMPORTS_PER_SOL
    ensures CalculateTokenPrice(raisedAmount) == BASE_RATE * (steps + 1)
  {
    assert raisedAmount / LAMPORTS_PER_SOL == steps;
  }

  /** Raising more never lowers the price. */
  lemma TokenPriceMonotone(r1: U64, r2: U64)
    requires r1 <= r2
    ensures CalculateTokenPrice(r1) <= CalculateTokenPrice(r2)
  {
  }

  /** The bonus ends exactly at ten SOL raised: a contribution that starts
      there is priced at the base rate. */
  lemma NoBonusAtCap(solAmount: U64)
    requires solAmount <= MAX_PRICED_AMOUNT
    ensures CalculateTokensFromSol(solAmount, BONUS_CAP) == Some(solAmount * BASE_RATE)
  {
  }

  /** For the same amount, a contribution made at a lower raised total never
      yields fewer tokens. */
  lemma EarlierNeverFewer(solAmount: U64, earlier: U64, later: U64)
    requires earlier <= later
    requires solAmount <= MAX_PRICED_AMOUNT
    ensures CalculateTokensFromSol(solAmount, earlier).value >= CalculateTokensFromSol(solAmount, later).value
  {
  }

  /** At a fixed raised total, a larger contribution never yields fewer tokens. */
  lemma TokensMonotoneInAmount(a1: U64, a2: U64, raised: U64)
    requires a1 <= a2 <= MAX_PRICED_AMOUNT
    ensures CalculateTokensFromSol(a1, raised).value <= CalculateTokensFromSol(a2, raised).value
  {
  }

  lemma MulMonotone(k: nat, x: nat, y: nat)
    requires x <= y
    ensures k * x <= k * y
  {
  }

  /** Splitting a contribution into two consecutive ones never earns more
      tokens than making it at once: the bonus is decided by the raised total
      before each contribution, and the second part starts no earlier. */
  lemma SplittingNeverGains(a: U64, b: U64, raised: U64)
    requires a + b <= MAX_PRICED_AMOUNT
    requires raised + a <= U64_MAX
    ensures CalculateTokensFromSol(a, raised).value + CalculateTokensFromSol(b, raised + a).value
            <= CalculateTokensFromSol(a + b, raised).value
  {
  }

  /** The lamports paid by consecutive contributions. */
  function Sum(amounts: seq<nat>): nat
  {
    if amounts == [] then 0 else amounts[0] + Sum(amounts[1..])
  }

  /** The tokens issued to consecutive contributions `amounts` made from the
      raised total `raised` on: each one is priced on the total before it
      (by the contract of `CalculateTokensFromSol`, each term is what that
      function returns), and the total then grows by its amount. Every
      lamport earns between the base rate and the bonus rate. */
  function IssuedOver(amounts: seq<nat>, raised: nat): (tokens: nat)
    ensures BASE_RATE * Sum(amounts) <= tokens <= BONUS_RATE * Sum(amounts)
  {
    if amounts == [] then 0
    else amounts[0] * RateAt(raised) + IssuedOver(amounts[1..], raised + amounts[0])
  }

  /** The first contribution of a run is credited what `calculate_tokens_from_sol`
      returns for it, and the rest of the run starts from the raised total it leaves. */
  lemma IssuedOverFirstStep(amounts: seq<nat>, raised: U64)
    requires amounts != [] && amounts[0] <= MAX_PRICED_AMOUNT
    ensures IssuedOver(amounts, raised)
            == CalculateTokensFromSol(amounts[0], raised).value + IssuedOver(amounts[1..], raised + amounts[0])
  {
  }

  /** However a run of contributions is split up, it never earns more than
      one contribution of the whole amount made at the start. */
  lemma {:induction false} LumpSumNeverLess(amounts: seq<nat>, raised: nat)
    ensures IssuedOver(amounts, raised) <= Sum(amounts) * RateAt(raised)
  {
    if amounts != [] {
      var a, rest := amounts[0], amounts[1..];
      LumpSumNeverLess(rest, raised + a);
      MulMonotone(Sum(rest), RateAt(raised + a), RateAt(raised));
      assert a * RateAt(raised) + Sum(rest) * RateAt(raised) == Sum(amounts) * RateAt(raised);
    }
  }

  /** While the raised total, net of withdrawals, stays at or below ten SOL,
      every lamport earns the bonus: a run of contributions that ends at or
      below the cap gets the bonus rate on all of it. */
  lemma {:induction false} BonusUpToCap(amounts: seq<nat>, raised: nat)
    requires raised + Sum(amounts) <= BONUS_CAP
    ensures IssuedOver(amounts, raised) == BONUS_RATE * Sum(amounts)
  {
    if amounts != [] {
      var a, rest := amounts[0], amounts[1..];
      BonusUpToCap(rest, raised + a);
      if a == 0 {
        assert a * RateAt(raised) == 0;
      } else {
        assert RateAt(raised) == BONUS_RATE;
      }
    }
  }

  /** While the raised total, net of withdrawals, is at least ten SOL, every
      lamport earns the base rate. */
  lemma {:induction false} BaseRateFromCap(amounts: seq<nat>, raised: nat)
    requires raised >= BONUS_CAP
    ensures IssuedOver(amounts, raised) == BASE_RATE * Sum(amounts)
  {
    if amounts != [] {
      BaseRateFromCap(amounts[1..], raised + amounts[0]);
    }
  }
}
