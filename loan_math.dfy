/**
 * The loan metrics calculator of the credit simulator: clamping of the raw
 * form values, the French-system (annuity) installment, totals, CAE and debt
 * ratio, and the record a computation produces.
 *
 * Money, rates and ratios are `real`; the term is an integral number of
 * months used as a `nat` exponent.
 */
module LoanMath {
  import opened Wrappers

  /** The six values the simulator form edits. `creditType` is a free string:
      the source compares it by value against table keys. */
  datatype SimulationInput = SimulationInput(
    amount: real,          // principal, CLP
    term: int,             // months
    rate: real,            // nominal annual rate, percent
    creditType: string,
    monthlyIncome: real,   // CLP
    institution: string)

  datatype SimulationMetrics = SimulationMetrics(
    monthlyInstallment: real,
    totalInterest: real,
    totalPaid: real,
    cae: real,
    debtRatio: real)

  /** An input together with its metrics, an identifier and a timestamp. */
  datatype SimulationResult = SimulationResult(
    input: SimulationInput,
    metrics: SimulationMetrics,
    id: string,
    createdAt: string)

  // ---------------------------------------------------------------------
  // Powers

  /** `Math.pow(x, n)` for a natural exponent. */
  function Pow(x: real, n: nat): real {
    if n == 0 then 1.0 else x * Pow(x, n - 1)
  }

  lemma {:induction false} PowAtLeastOne(x: real, n: nat)
    requires x >= 1.0
    ensures Pow(x, n) >= 1.0
  {
    if n > 0 {
      PowAtLeastOne(x, n - 1);
      assert x * Pow(x, n - 1) >= 1.0 * Pow(x, n - 1);
    }
  }

  lemma {:induction false} PowAboveOne(x: real, n: nat)
    requires x > 1.0 && n >= 1
    ensures Pow(x, n) > 1.0
  {
    PowAtLeastOne(x, n - 1);
    assert x * Pow(x, n - 1) > 1.0 * Pow(x, n - 1);
  }

  /** Powers of a base at least 1 grow with the base. */
  lemma {:induction false} PowMonotoneInBase(x: real, y: real, n: nat)
    requires 1.0 <= x <= y
    ensures Pow(x, n) <= Pow(y, n)
  {
    if n > 0 {
      PowMonotoneInBase(x, y, n - 1);
      PowAtLeastOne(x, n - 1);
      assert x * Pow(x, n - 1) <= y * Pow(x, n - 1);
      assert y * Pow(x, n - 1) <= y * Pow(y, n - 1);
    }
  }

  /** Bernoulli's inequality: (1 + r)^n >= 1 + n r for every r >= -1. */
  lemma {:induction false} Bernoulli(r: real, n: nat)
    requires r >= -1.0
    ensures Pow(1.0 + r, n) >= 1.0 + (n as real) * r
  {
    if n > 0 {
      Bernoulli(r, n - 1);
      var m := (n - 1) as real;
      BernoulliStep(r, m, Pow(1.0 + r, n - 1));
      assert (n as real) == m + 1.0;
    }
  }

  /** One step of `Bernoulli`: from p >= 1 + m r to (1 + r) p >= 1 + (m + 1) r. */
  lemma BernoulliStep(r: real, m: real, p: real)
    requires r >= -1.0 && m >= 0.0 && p >= 1.0 + m * r
    ensures (1.0 + r) * p >= 1.0 + (m + 1.0) * r
  {
    var low := 1.0 + m * r;
    MulLeftMonotone(low, p, 1.0 + r);
    assert (1.0 + r) * low == 1.0 + (m + 1.0) * r + m * (r * r);
    MulNonNegative(m, r * r);
  }

  /** The companion bound (1 + r)^n (1 - n r) <= 1, strict once n >= 1 and r > 0. */
  lemma {:induction false} PowTimesDeficit(r: real, n: nat)
    requires r >= 0.0
    ensures Pow(1.0 + r, n) * (1.0 - (n as real) * r) <= 1.0
    ensures n >= 1 && r > 0.0 ==> Pow(1.0 + r, n) * (1.0 - (n as real) * r) < 1.0
  {
    if n > 0 {
      PowTimesDeficit(r, n - 1);
      PowAtLeastOne(1.0 + r, n - 1);
      var p := Pow(1.0 + r, n - 1);
      var m := (n - 1) as real;
      assert Pow(1.0 + r, n) == (1.0 + r) * p;
      assert (n as real) == m + 1.0;
      DeficitStep(p, r, m);
    }
  }

  lemma DeficitStep(p: real, r: real, m: real)
    requires p >= 1.0 && r >= 0.0 && m >= 0.0
    requires p * (1.0 - m * r) <= 1.0
    ensures ((1.0 + r) * p) * (1.0 - (m + 1.0) * r) <= 1.0
    ensures r > 0.0 ==> ((1.0 + r) * p) * (1.0 - (m + 1.0) * r) < 1.0
  {
    var k := m + 1.0;
    var a := p * k * r;
    var loss := a * r;
    var kept := p * (1.0 - m * r);
    var x := ((1.0 + r) * p) * (1.0 - k * r);
    assert x == kept - loss;
    if r > 0.0 {
      assert a > 0.0;
      MulPositive(a, r);
      assert x < 1.0;
    } else {
      assert loss == 0.0;
    }
  }

  lemma MulLeftMonotone(a: real, b: real, c: real)
    requires a <= b && c >= 0.0
    ensures c * a <= c * b
  {}

  lemma MulNonNegative(a: real, b: real)
    requires a >= 0.0 && b >= 0.0
    ensures a * b >= 0.0
  {}

  lemma MulPositive(a: real, b: real)
    requires a > 0.0 && b > 0.0
    ensures a * b > 0.0
  {}

  // ---------------------------------------------------------------------
  // The French-system installment

  /** `rate / 100 / 12`: the monthly rate as a fraction from an annual percentage. */
  function MonthlyRate(annualPercent: real): real {
    annualPercent / 100.0 / 12.0
  }

  /**
   * Fixed monthly payment that repays `principal` in `months` payments at a
   * monthly interest `monthlyRate`: straight division at rate 0, otherwise
   * P r (1+r)^n / ((1+r)^n - 1). The denominator is never zero.
   */
  function Installment(principal: real, monthlyRate: real, months: nat): (p: real)
    requires months >= 1 && monthlyRate >= 0.0
    ensures monthlyRate == 0.0 ==> p * (months as real) == principal
    ensures monthlyRate > 0.0 ==>
              p * (Pow(1.0 + monthlyRate, months) - 1.0)
              == principal * monthlyRate * Pow(1.0 + monthlyRate, months)
  {
    if monthlyRate == 0.0 then principal / (months as real)
    else
      var factor := Pow(1.0 + monthlyRate, months);
      PowAboveOne(1.0 + monthlyRate, months);
      (principal * monthlyRate * factor) / (factor - 1.0)
  }

  /** Balance still owed after `k` monthly payments: each month the balance
      accrues interest and then one payment is subtracted. */
  function Balance(principal: real, monthlyRate: real, payment: real, k: nat): real {
    if k == 0 then principal
    else Balance(principal, monthlyRate, payment, k - 1) * (1.0 + monthlyRate) - payment
  }

  lemma {:induction false} BalanceTimesRate(principal: real, r: real, payment: real, k: nat)
    ensures Balance(principal, r, payment, k) * r
         == principal * r * Pow(1.0 + r, k) - payment * (Pow(1.0 + r, k) - 1.0)
  {
    if k == 0 {
      assert Pow(1.0 + r, 0) - 1.0 == 0.0;
    } else {
      BalanceTimesRate(principal, r, payment, k - 1);
      BalanceStep(Balance(principal, r, payment, k - 1), Balance(principal, r, payment, k),
                  Pow(1.0 + r, k - 1), Pow(1.0 + r, k), r, payment, principal);
    }
  }

  /** One month of `BalanceTimesRate`: the identity carries over one payment. */
  lemma BalanceStep(b: real, bk: real, f: real, fk: real, r: real, payment: real, principal: real)
    requires bk == b * (1.0 + r) - payment && fk == (1.0 + r) * f
    requires b * r == principal * r * f - payment * (f - 1.0)
    ensures bk * r == principal * r * fk - payment * (fk - 1.0)
  {
    assert bk * r == (b * r) * (1.0 + r) - payment * r;
  }

  lemma {:induction false} BalanceAtZeroRate(principal: real, payment: real, k: nat)
    ensures Balance(principal, 0.0, payment, k) == principal - (k as real) * payment
  {
    if k > 0 {
      BalanceAtZeroRate(principal, payment, k - 1);
    }
  }

  /** The installment is exactly the payment that brings the balance to zero
      after the last month. */
  lemma InstallmentAmortizes(principal: real, monthlyRate: real, months: nat)
    requires months >= 1 && monthlyRate >= 0.0
    ensures Balance(principal, monthlyRate, Installment(principal, monthlyRate, months), months) == 0.0
  {
    var p := Installment(principal, monthlyRate, months);
    if monthlyRate == 0.0 {
      BalanceAtZeroRate(principal, p, months);
    } else {
      var f := Pow(1.0 + monthlyRate, months);
      PowAboveOne(1.0 + monthlyRate, months);
      assert p * (f - 1.0) == principal * monthlyRate * f;
      BalanceTimesRate(principal, monthlyRate, p, months);
      var b := Balance(principal, monthlyRate, p, months);
      assert b * monthlyRate == 0.0;
    }
  }

  /** The installment has the sign of the principal. */
  lemma InstallmentSign(principal: real, monthlyRate: real, months: nat)
    requires months >= 1 && monthlyRate >= 0.0
    ensures principal > 0.0 ==> Installment(principal, monthlyRate, months) > 0.0
    ensures principal == 0.0 ==> Installment(principal, monthlyRate, months) == 0.0
  {
    if monthlyRate > 0.0 {
      var f := Pow(1.0 + monthlyRate, months);
      PowAboveOne(1.0 + monthlyRate, months);
      QuotientSign(principal, monthlyRate, f);
    }
  }

  lemma QuotientSign(principal: real, r: real, f: real)
    requires r > 0.0 && f > 1.0
    ensures principal > 0.0 ==> (principal * r * f) / (f - 1.0) > 0.0
    ensures principal == 0.0 ==> (principal * r * f) / (f - 1.0) == 0.0
  {
    if principal > 0.0 {
      MulPositive(principal, r);
      MulPositive(principal * r, f);
    } else if principal == 0.0 {
      var num := principal * r * f;
      assert num == 0.0;
      ZeroQuotient(num, f - 1.0);
    }
  }

  /** All payments together never repay less than the principal, and strictly
      more once the rate and the principal are positive. */
  lemma InstallmentCoversPrincipal(principal: real, monthlyRate: real, months: nat)
    requires months >= 1 && monthlyRate >= 0.0 && principal >= 0.0
    ensures Installment(principal, monthlyRate, months) * (months as real) >= principal
    ensures monthlyRate > 0.0 && principal > 0.0 ==>
              Installment(principal, monthlyRate, months) * (months as real) > principal
    ensures monthlyRate == 0.0 ==> Installment(principal, monthlyRate, months) * (months as real) == principal
  {
    if monthlyRate > 0.0 {
      var p := Installment(principal, monthlyRate, months);
      var f := Pow(1.0 + monthlyRate, months);
      PowAboveOne(1.0 + monthlyRate, months);
      PowTimesDeficit(monthlyRate, months);
      CoverStep(p, principal, monthlyRate, f, months as real);
    }
  }

  /** The algebra of `InstallmentCoversPrincipal` for a payment `p` that solves
      the annuity equation p (f - 1) = P r f. */
  lemma CoverStep(p: real, principal: real, r: real, f: real, n: real)
    requires r > 0.0 && f > 1.0 && n >= 1.0 && principal >= 0.0
    requires p * (f - 1.0) == principal * r * f
    requires f * (1.0 - n * r) < 1.0
    ensures p * n >= principal
    ensures principal > 0.0 ==> p * n > principal
  {
    var gap := 1.0 - f * (1.0 - n * r);
    assert (p * n - principal) * (f - 1.0) == principal * gap;
    MulNonNegative(principal, gap);
    if p * n - principal < 0.0 {
      MulNegPos(p * n - principal, f - 1.0);
      assert false;
    }
    if principal > 0.0 {
      MulPositive(principal, gap);
      if p * n - principal <= 0.0 {
        MulNonPosPos(p * n - principal, f - 1.0);
        assert false;
      }
    }
  }

  lemma ZeroQuotient(num: real, d: real)
    requires num == 0.0 && d != 0.0
    ensures num / d == 0.0
  {}

  lemma MulNegPos(a: real, b: real)
    requires a < 0.0 && b > 0.0
    ensures a * b < 0.0
  {}

  lemma MulNonPosPos(a: real, b: real)
    requires a <= 0.0 && b > 0.0
    ensures a * b <= 0.0
  {}

  // ---------------------------------------------------------------------
  // calculateSimulationMetrics

  function Max(a: real, b: real): real {
    if a >= b then a else b
  }

  /** `Math.max(input.term, 1)`. */
  function ClampedTerm(term: int): (t: nat)
    ensures t >= 1
    ensures term >= 1 ==> t == term
  {
    if term >= 1 then term else 1
  }

  /** The cost of one year of monthly compounding, as a percentage: never
      below the nominal annual rate twelve times the monthly one. */
  function Cae(monthlyRate: real): (cae: real)
    ensures monthlyRate >= -1.0 ==> cae >= 1200.0 * monthlyRate
  {
    var grown := Pow(1.0 + monthlyRate, 12);
    if monthlyRate >= -1.0 then
      Bernoulli(monthlyRate, 12);
      (grown - 1.0) * 100.0
    else
      (grown - 1.0) * 100.0
  }

  /** The derived figures of one simulation, after clamping amount >= 0,
      term >= 1, rate >= 0 and income >= 1 (so nothing divides by zero). */
  function CalculateSimulationMetrics(input: SimulationInput): (m: SimulationMetrics)
    ensures m.totalPaid == m.monthlyInstallment * (ClampedTerm(input.term) as real)
    ensures m.totalInterest == m.totalPaid - Max(input.amount, 0.0)
    ensures m.debtRatio * Max(input.monthlyIncome, 1.0) == m.monthlyInstallment
    ensures m.cae >= 0.0
  {
    var amount := Max(input.amount, 0.0);
    var term := ClampedTerm(input.term);
    var rate := Max(input.rate, 0.0);
    var income := Max(input.monthlyIncome, 1.0);
    var monthlyRate := MonthlyRate(rate);
    var installment := Installment(amount, monthlyRate, term);
    var totalPaid := installment * (term as real);
    PowAtLeastOne(1.0 + monthlyRate, 12);
    SimulationMetrics(
      monthlyInstallment := installment,
      totalInterest := totalPaid - amount,
      totalPaid := totalPaid,
      cae := Cae(monthlyRate),
      debtRatio := installment / income)
  }

  /** The installment of a simulation pays off the clamped amount exactly at
      the clamped term, at the monthly rate rate/100/12. */
  lemma MetricsAmortizeLoan(input: SimulationInput)
    ensures Balance(Max(input.amount, 0.0), MonthlyRate(Max(input.rate, 0.0)),
                    CalculateSimulationMetrics(input).monthlyInstallment,
                    ClampedTerm(input.term)) == 0.0
  {
    InstallmentAmortizes(Max(input.amount, 0.0), MonthlyRate(Max(input.rate, 0.0)), ClampedTerm(input.term));
  }

  /** A zero (or negative, hence clamped) rate means a straight split of the
      amount and no interest; otherwise interest is positive for a positive amount. */
  lemma MetricsInterest(input: SimulationInput)
    ensures var m := CalculateSimulationMetrics(input);
            m.totalInterest >= 0.0
            && (input.rate <= 0.0 ==>
                  m.monthlyInstallment == Max(input.amount, 0.0) / (ClampedTerm(input.term) as real)
                  && m.totalInterest == 0.0)
            && (input.rate > 0.0 && input.amount > 0.0 ==> m.totalInterest > 0.0)
  {
    InstallmentCoversPrincipal(Max(input.amount, 0.0), MonthlyRate(Max(input.rate, 0.0)), ClampedTerm(input.term));
  }

  /** A positive amount gives a positive installment and debt ratio. */
  lemma MetricsPositive(input: SimulationInput)
    ensures var m := CalculateSimulationMetrics(input);
            (input.amount > 0.0 ==> m.monthlyInstallment > 0.0 && m.debtRatio > 0.0)
            && (input.amount <= 0.0 ==> m.monthlyInstallment == 0.0 && m.debtRatio == 0.0)
  {
    InstallmentSign(Max(input.amount, 0.0), MonthlyRate(Max(input.rate, 0.0)), ClampedTerm(input.term));
    var m := CalculateSimulationMetrics(input);
    RatioSign(m.monthlyInstallment, Max(input.monthlyIncome, 1.0));
  }

  lemma RatioSign(x: real, d: real)
    requires d >= 1.0
    ensures x > 0.0 ==> x / d > 0.0
    ensures x == 0.0 ==> x / d == 0.0
  {}

  /** CAE never decreases when the nominal rate grows, is zero exactly at a
      non-positive rate, and is never below the (clamped) nominal rate. */
  lemma CaeMonotone(a: SimulationInput, b: SimulationInput)
    requires a.rate <= b.rate
    ensures CalculateSimulationMetrics(a).cae <= CalculateSimulationMetrics(b).cae
    ensures CalculateSimulationMetrics(a).cae >= Max(a.rate, 0.0)
    ensures CalculateSimulationMetrics(a).cae == 0.0 <==> a.rate <= 0.0
  {
    var ra := MonthlyRate(Max(a.rate, 0.0));
    var rb := MonthlyRate(Max(b.rate, 0.0));
    PowMonotoneInBase(1.0 + ra, 1.0 + rb, 12);
    Bernoulli(ra, 12);
    if a.rate > 0.0 {
      PowAboveOne(1.0 + ra, 12);
    }
  }

  // ---------------------------------------------------------------------
  // buildSimulationResult

  /**
   * A stored simulation: the input unchanged, its metrics, `previousId` when
   * one is supplied (the `??` fallback), otherwise the freshly generated
   * identifier; the random identifier and the clock are parameters.
   */
  function BuildSimulationResult(input: SimulationInput, previousId: Option<string>,
                                 freshId: string, createdAt: string): (r: SimulationResult)
    ensures r.input == input && r.createdAt == createdAt
    ensures r.metrics == CalculateSimulationMetrics(input)
    ensures r.metrics.totalPaid == r.metrics.monthlyInstallment * (ClampedTerm(input.term) as real)
    ensures previousId.Some? ==> r.id == previousId.value
    ensures previousId.None? ==> r.id == freshId
  {
    SimulationResult(input, CalculateSimulationMetrics(input), previousId.GetOr(freshId), createdAt)
  }
}
