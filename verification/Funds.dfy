/** What a vault can pay for before any node is reserved. */
module Funds {
  import opened Prelude

  datatype Budget = MaxJobPrice(jobPrice: int) | MaxUsdPerHour(usdPerHour: real)

  /** A check that cannot be made leaves the request unchecked. */
  datatype FundsCheck = Unchecked | Affordable(count: nat, budget: Budget) | Insufficient | NeverPayable

  const NOS_UNITS := 1_000_000.0
  const ASSIGN_FEE_LAMPORTS := 100_000

  function Round(x: real): int { (x + 0.5).Floor }

  function Ceil(x: real): int { -(-x).Floor }

  /** An unpriced market is skipped. */
  function Positive(prices: seq<Option<real>>): seq<real> {
    if prices == [] then []
    else
      var last := prices[|prices| - 1];
      Positive(prices[..|prices| - 1]) + (if last.Some? && last.value > 0.0 then [last.value] else [])
  }

  function Cheapest(prices: seq<real>): real
    requires prices != []
  {
    var last := prices[|prices| - 1];
    if |prices| == 1 then last
    else
      var rest := Cheapest(prices[..|prices| - 1]);
      if rest <= last then rest else last
  }

  lemma {:induction false} CheapestIs(prices: seq<real>)
    requires prices != []
    ensures Cheapest(prices) in prices && forall price :: price in prices ==> Cheapest(prices) <= price
  {
    if |prices| > 1 {
      var front := prices[..|prices| - 1];
      CheapestIs(front);
      assert prices == front + [prices[|prices| - 1]];
    }
  }

  lemma {:induction false} PositiveIff(prices: seq<Option<real>>, price: real)
    ensures price in Positive(prices) <==> price > 0.0 && Some(price) in prices
  {
    if prices != [] {
      var front, last := prices[..|prices| - 1], prices[|prices| - 1];
      PositiveIff(front, price);
      assert prices == front + [last];
    }
  }

  /** What one job costs on chain: the cheapest market's price over the timeout. */
  function JobPrice(prices: seq<Option<real>>): int
    requires Positive(prices) != []
  {
    Round(Cheapest(Positive(prices)) * NOS_UNITS)
  }

  function MinOf3(a: int, b: int, c: int): int { Min(a, Min(b, c)) }

  function CheckVault(prices: seq<Option<real>>, nos: nat, sol: nat, rents: nat, count: nat, seconds: nat): FundsCheck {
    if Positive(prices) == [] then Unchecked
    else
      var nosPerJob := JobPrice(prices) * seconds;
      if nosPerJob == 0 then Unchecked
      else
        var affordable := MinOf3(count, nos / nosPerJob, sol / (ASSIGN_FEE_LAMPORTS + rents));
        if affordable < 1 then Insufficient
        else Affordable(affordable, MaxJobPrice(nos / (affordable * seconds)))
  }

  lemma DivBounds(x: int, d: int)
    requires d > 0
    ensures (x / d) * d <= x < (x / d) * d + d
  {
  }

  lemma FitsIff(n: int, per: int, have: int)
    requires per > 0
    ensures n * per <= have <==> n <= have / per
  {
    DivBounds(have, per);
    var q := have / per;
    if n <= q { assert n * per <= q * per; }
    else { assert n * per >= (q + 1) * per == q * per + per; }
  }

  lemma RoundGrows(x: real, y: real)
    requires x <= y
    ensures Round(x) <= Round(y)
  {
  }

  /** The price asked about is one of the markets', and no priced market is cheaper. */
  lemma JobPriceIsCheapest(prices: seq<Option<real>>, price: real)
    requires Positive(prices) != []
    ensures Cheapest(Positive(prices)) > 0.0 && Some(Cheapest(Positive(prices))) in prices && JobPrice(prices) >= 0
    ensures price > 0.0 && Some(price) in prices ==> JobPrice(prices) <= Round(price * NOS_UNITS)
  {
    var cheapest := Cheapest(Positive(prices));
    CheapestIs(Positive(prices));
    PositiveIff(prices, cheapest);
    PositiveIff(prices, price);
    RoundGrows(0.0, cheapest * NOS_UNITS);
    if price > 0.0 && Some(price) in prices { RoundGrows(cheapest * NOS_UNITS, price * NOS_UNITS); }
  }

  /** So many jobs, at the cheapest price, fit both balances. */
  predicate VaultFits(n: nat, nosPerJob: int, nos: nat, solPerJob: int, sol: nat) {
    n * nosPerJob <= nos && n * solPerJob <= sol
  }

  /**
   * A check that can be made asks for the most jobs, up to `count`, that fit
   * both balances at the cheapest price, and finds the funds insufficient
   * exactly when not one does.
   */
  lemma VaultCountIsMaximal(prices: seq<Option<real>>, nos: nat, sol: nat, rents: nat, count: nat, seconds: nat)
    requires Positive(prices) != [] && JobPrice(prices) * seconds > 0
    ensures var check := CheckVault(prices, nos, sol, rents, count, seconds);
      var nosPerJob, solPerJob := JobPrice(prices) * seconds, ASSIGN_FEE_LAMPORTS + rents;
      && (check.Affordable? || check.Insufficient?)
      && (check.Insufficient? <==> count == 0 || !VaultFits(1, nosPerJob, nos, solPerJob, sol))
      && (check.Affordable? ==>
            && 1 <= check.count <= count && VaultFits(check.count, nosPerJob, nos, solPerJob, sol)
            && (check.count == count || !VaultFits(check.count + 1, nosPerJob, nos, solPerJob, sol)))
  {
    var nosPerJob, solPerJob := JobPrice(prices) * seconds, ASSIGN_FEE_LAMPORTS + rents;
    var affordable := MinOf3(count, nos / nosPerJob, sol / solPerJob);
    forall n: nat ensures VaultFits(n, nosPerJob, nos, solPerJob, sol) <==> n <= nos / nosPerJob && n <= sol / solPerJob {
      FitsIff(n, nosPerJob, nos);
      FitsIff(n, solPerJob, sol);
    }
    DivBounds(nos, nosPerJob);
    DivBounds(sol, solPerJob);
  }

  /**
   * The budget admits the cheapest market, and is the largest price at which the
   * asked-for jobs still fit: at any price within it they never cost more than
   * the balance, and at any price above it they do.
   */
  lemma VaultBudgetIsExact(prices: seq<Option<real>>, nos: nat, sol: nat, rents: nat, count: nat, seconds: nat,
                           price: int)
    requires CheckVault(prices, nos, sol, rents, count, seconds).Affordable?
    ensures var check := CheckVault(prices, nos, sol, rents, count, seconds);
      && check.budget.MaxJobPrice?
      && JobPrice(prices) <= check.budget.jobPrice
      && (check.count * (price * seconds) <= nos <==> price <= check.budget.jobPrice)
  {
    var check := CheckVault(prices, nos, sol, rents, count, seconds);
    VaultPricePositive(prices, seconds);
    VaultCountIsMaximal(prices, nos, sol, rents, count, seconds);
    BudgetFits(nos, check.count, seconds, price);
    BudgetFits(nos, check.count, seconds, JobPrice(prices));
  }

  /** A price that makes a job cost something is itself above zero. */
  lemma VaultPricePositive(prices: seq<Option<real>>, seconds: nat)
    requires Positive(prices) != [] && JobPrice(prices) * seconds != 0
    ensures JobPrice(prices) > 0 && seconds > 0 && JobPrice(prices) * seconds > 0
  {
    JobPriceIsCheapest(prices, 1.0);
    if seconds == 0 || JobPrice(prices) == 0 { ZeroTimes(JobPrice(prices), seconds); }
    PositiveTimes(JobPrice(prices), seconds);
  }

  lemma ZeroTimes(a: int, b: int)
    requires a == 0 || b == 0
    ensures a * b == 0
  {
  }

  lemma PositiveTimes(a: int, b: int)
    requires a >= 0 && b >= 0
    ensures a > 0 && b > 0 ==> a * b > 0
  {
  }

  lemma BudgetFits(have: nat, n: nat, seconds: nat, price: int)
    requires n > 0 && seconds > 0
    ensures n * seconds > 0 && (n * (price * seconds) <= have <==> price <= have / (n * seconds))
  {
    PositiveTimes(n, seconds);
    FitsIff(price, n * seconds, have);
    assert price * (n * seconds) == n * (price * seconds);
  }

  // ----- credits -----

  /** What one job is charged, in 0.1 cent: the price over the timeout, rounded up, at least 1 cent. */
  function CreditsCost(usdPerHour: real, seconds: nat): int { Max(Ceil(Charge(usdPerHour, seconds)), 10) }

  function Charge(usdPerHour: real, seconds: nat): real { usdPerHour * seconds as real / 3600.0 * 1000.0 }

  /** A non-premium market can never be paid for with credits. */
  function CheckCredits(allPremium: bool, prices: seq<Option<real>>, available: int, count: nat, seconds: nat): FundsCheck
    requires seconds > 0
  {
    if !allPremium then NeverPayable
    else if Positive(prices) == [] then Unchecked
    else
      var affordable := Min(count, available / CreditsCost(Cheapest(Positive(prices)), seconds));
      if affordable < 1 then Insufficient
      else Affordable(affordable, MaxUsdPerHour(CreditsBudget(available, affordable, seconds)))
  }

  function CreditsBudget(available: int, count: int, seconds: nat): real
    requires count > 0 && seconds > 0
  {
    available as real / 1000.0 / count as real / (seconds as real / 3600.0)
  }

  lemma CeilIs(x: real)
    ensures x <= Ceil(x) as real < x + 1.0
  {
  }

  lemma CeilLeast(x: real, n: int)
    requires x <= n as real
    ensures Ceil(x) <= n
  {
    CeilIs(x);
  }

  lemma ChargeGrows(p: real, q: real, seconds: nat)
    requires p <= q
    ensures Charge(p, seconds) <= Charge(q, seconds)
  {
    assert p * seconds as real <= q * seconds as real;
  }

  /** The budget is the price at which the asked-for jobs are charged exactly what is available, before rounding. */
  lemma BudgetCharge(available: int, count: int, seconds: nat)
    requires count > 0 && seconds > 0
    ensures Charge(CreditsBudget(available, count, seconds), seconds) == available as real / count as real
  {
    var t, share := seconds as real, available as real / 1000.0 / count as real;
    assert share / (t / 3600.0) * t == share * 3600.0;
    assert share * 1000.0 == available as real / count as real;
  }

  /** Credits are asked for the most jobs, up to `count`, the available credits pay for at the cheapest price. */
  lemma CreditsCountIsMaximal(prices: seq<Option<real>>, available: int, count: nat, seconds: nat)
    requires seconds > 0 && Positive(prices) != []
    ensures var check := CheckCredits(true, prices, available, count, seconds);
      var perJob := CreditsCost(Cheapest(Positive(prices)), seconds);
      && (check.Affordable? || check.Insufficient?)
      && (check.Insufficient? <==> count == 0 || perJob > available)
      && (check.Affordable? ==>
            && 1 <= check.count <= count && check.count * perJob <= available
            && (check.count == count || (check.count + 1) * perJob > available))
  {
    var perJob := CreditsCost(Cheapest(Positive(prices)), seconds);
    FitsIff(1, perJob, available);
    FitsIff(Min(count, available / perJob), perJob, available);
    FitsIff(Min(count, available / perJob) + 1, perJob, available);
  }

  lemma MulLe(n: int, x: real, y: real)
    requires n >= 0 && x <= y
    ensures n as real * x <= n as real * y
  {
  }

  /** The cheapest market is within the budget. */
  lemma CreditsBudgetAdmitsCheapest(prices: seq<Option<real>>, available: int, count: nat, seconds: nat)
    requires seconds > 0 && CheckCredits(true, prices, available, count, seconds).Affordable?
    ensures var check := CheckCredits(true, prices, available, count, seconds);
      check.budget.MaxUsdPerHour? && Cheapest(Positive(prices)) <= check.budget.usdPerHour
  {
    var check := CheckCredits(true, prices, available, count, seconds);
    var price, n := Cheapest(Positive(prices)), check.count;
    CreditsCountIsMaximal(prices, available, count, seconds);
    CeilIs(Charge(price, seconds));
    MulLe(n, Charge(price, seconds), CreditsCost(price, seconds) as real);
    assert n as real * Charge(price, seconds) <= available as real;
    WithinBudget(price, available, n, seconds);
  }

  /** A price is within the budget exactly when so many jobs, before rounding, fit the available credits. */
  lemma WithinBudget(price: real, available: int, n: nat, seconds: nat)
    requires n > 0 && seconds > 0
    ensures price <= CreditsBudget(available, n, seconds) <==> n as real * Charge(price, seconds) <= available as real
  {
    var budget := CreditsBudget(available, n, seconds);
    BudgetCharge(available, n, seconds);
    if price <= budget {
      ChargeGrows(price, budget, seconds);
      MulLe(n, Charge(price, seconds), available as real / n as real);
    } else {
      assert price * seconds as real > budget * seconds as real;
      assert Charge(price, seconds) > available as real / n as real;
      assert n as real * Charge(price, seconds) > n as real * (available as real / n as real);
    }
  }

  /** Rounding up adds less than one unit to each of `n` charges. */
  lemma RoundingAdds(n: nat, charge: real, available: int)
    requires n > 0 && n as real * charge <= available as real
    ensures n * Ceil(charge) < available + n
  {
    var k := Ceil(charge) - 1;
    CeilIs(charge);
    BelowStaysBelow(n, k, charge, available);
    assert n * (k + 1) == n * k + n;
  }

  lemma BelowStaysBelow(n: nat, k: int, charge: real, available: int)
    requires n > 0 && k as real < charge && n as real * charge <= available as real
    ensures n * k < available
  {
    MulLess(n, k as real, charge);
    CastMul(n, k);
    calc {
      (n * k) as real;
    ==
      n as real * k as real;
    <
      n as real * charge;
    <=
      available as real;
    }
  }

  lemma MulLess(n: nat, x: real, y: real)
    requires n > 0 && x < y
    ensures n as real * x < n as real * y
  {
  }

  lemma CastMul(n: nat, c: int)
    ensures n as real * c as real == (n * c) as real
  {
  }

  /** Within the budget, rounding can add less than one unit a job. */
  lemma CreditsOvershootIsBounded(prices: seq<Option<real>>, available: int, count: nat, seconds: nat, price: real)
    requires seconds > 0 && CheckCredits(true, prices, available, count, seconds).Affordable?
    requires price <= CheckCredits(true, prices, available, count, seconds).budget.usdPerHour
    ensures var n := CheckCredits(true, prices, available, count, seconds).count;
      n * CreditsCost(price, seconds) < available + n
  {
    var n := CheckCredits(true, prices, available, count, seconds).count;
    var perJob := CreditsCost(Cheapest(Positive(prices)), seconds);
    CreditsCountIsMaximal(prices, available, count, seconds);
    WithinBudget(price, available, n, seconds);
    RoundingAdds(n, Charge(price, seconds), available);
    MulMono(n, 10, perJob);
  }

  lemma MulMono(n: nat, a: int, b: int)
    requires a <= b
    ensures n * a <= n * b
  {
  }

  /**
   * The asked-for jobs fit the available credits at every price within the
   * budget exactly when the credits divide evenly among them; otherwise the
   * budget's own price already costs too much.
   */
  lemma CreditsFitIff(prices: seq<Option<real>>, available: int, count: nat, seconds: nat)
    requires seconds > 0 && CheckCredits(true, prices, available, count, seconds).Affordable?
    ensures var check := CheckCredits(true, prices, available, count, seconds);
      (forall price: real :: price <= check.budget.usdPerHour ==> check.count * CreditsCost(price, seconds) <= available)
      <==> available % check.count == 0
  {
    var check := CheckCredits(true, prices, available, count, seconds);
    var n, budget := check.count, check.budget.usdPerHour;
    CreditsCountIsMaximal(prices, available, count, seconds);
    MulMono(n, 10, CreditsCost(Cheapest(Positive(prices)), seconds));
    if available % n == 0 {
      forall price: real | price <= budget ensures n * CreditsCost(price, seconds) <= available {
        EvenShareFits(available, n, seconds, price);
      }
    } else {
      UnevenShareOvershoots(available, n, seconds);
      assert n * CreditsCost(budget, seconds) > available;
    }
  }

  lemma EvenShareFits(available: int, n: nat, seconds: nat, price: real)
    requires n > 0 && seconds > 0 && available % n == 0 && n * 10 <= available
    requires price <= CreditsBudget(available, n, seconds)
    ensures n * CreditsCost(price, seconds) <= available
  {
    var share := available / n;
    BudgetCharge(available, n, seconds);
    ChargeGrows(price, CreditsBudget(available, n, seconds), seconds);
    assert share * n == available;
    RealShare(available, n, share);
    CeilLeast(Charge(price, seconds), share);
    FitsIff(10, n, available);
    MulMono(n, CreditsCost(price, seconds), share);
  }

  lemma RealShare(available: int, n: nat, share: int)
    requires n > 0 && share * n == available
    ensures available as real / n as real == share as real
  {
    CastMul(n, share);
  }

  lemma UnevenShareOvershoots(available: int, n: nat, seconds: nat)
    requires n > 0 && seconds > 0 && available % n != 0
    ensures n * CreditsCost(CreditsBudget(available, n, seconds), seconds) > available
  {
    var budget := CreditsBudget(available, n, seconds);
    var cost := CreditsCost(budget, seconds);
    BudgetCharge(available, n, seconds);
    CeilIs(Charge(budget, seconds));
    MulLe(n, available as real / n as real, cost as real);
    CastMul(n, cost);
    assert n * cost >= available;
    if n * cost == available { EvenMultiple(n, cost); }
  }

  lemma EvenMultiple(n: nat, c: int)
    requires n > 0
    ensures (n * c) % n == 0
  {
    var q, r := (n * c) / n, (n * c) % n;
    assert n * (c - q) == r;
    if c - q >= 1 { MulMono(n, 1, c - q); }
    if c - q <= -1 { MulMono(n, c - q, -1); }
  }
}
