/**
 * The two loan simulators of the signed-in application: the public one on
 * the landing section, at a fixed annual rate, and the private one, at the
 * client's preferential monthly rate with two optional insurances. Both
 * quote the French-system instalment of the calculator in `LoanMath`.
 */
module Simulators {
  import opened Wrappers
  import opened LoanMath
  import AccountStore

  /** The sliders of both simulators: amounts in steps of 500,000 and terms of 6 to 48 months. */
  const MIN_AMOUNT: real := 1000000.0
  const MAX_AMOUNT: real := 50000000.0
  const MIN_TERM: nat := 6
  const MAX_TERM: nat := 48

  // ---------------------------------------------------------------------
  // The public simulator.
  // ---------------------------------------------------------------------

  /** The fixed annual rate of the public simulator, in percent. */
  const PUBLIC_ANNUAL_RATE: real := 18.0

  /**
   * The public `calculateMonthlyPayment`, from an annual percentage: the
   * monthly fraction is `annualRate / 100 / 12`; at zero it divides the
   * principal evenly, otherwise it applies the annuity formula.
   */
  function PublicMonthlyPayment(principal: real, annualRate: real, months: nat): (p: real)
    requires months >= 1 && annualRate >= 0.0
    ensures p == Installment(principal, MonthlyRate(annualRate), months)
    ensures annualRate == 0.0 ==> p == principal / (months as real)
  {
    var monthlyRate := annualRate / 100.0 / 12.0;
    if monthlyRate == 0.0 then principal / (months as real)
    else
      var numerator := principal * monthlyRate * Pow(1.0 + monthlyRate, months);
      var denominator := Pow(1.0 + monthlyRate, months) - 1.0;
      PowAboveOne(1.0 + monthlyRate, months);
      numerator / denominator
  }

  datatype PublicQuote = PublicQuote(cuotaMensual: real, totalPagar: real, totalIntereses: real)

  /** The figures the public simulator shows for an amount and a term. */
  function PublicQuoteOf(monto: real, plazo: nat): (q: PublicQuote)
    requires plazo >= 1
    ensures q.cuotaMensual == PublicMonthlyPayment(monto, PUBLIC_ANNUAL_RATE, plazo)
    ensures q.totalPagar == q.cuotaMensual * (plazo as real)
    ensures q.totalIntereses == q.totalPagar - monto
  {
    var cuota := PublicMonthlyPayment(monto, PUBLIC_ANNUAL_RATE, plazo);
    var total := cuota * (plazo as real);
    PublicQuote(cuota, total, total - monto)
  }

  /** The public quote repays the amount exactly and always charges interest on a positive amount. */
  lemma PublicQuoteRepays(monto: real, plazo: nat)
    requires plazo >= 1 && monto >= 0.0
    ensures Balance(monto, MonthlyRate(PUBLIC_ANNUAL_RATE), PublicQuoteOf(monto, plazo).cuotaMensual, plazo) == 0.0
    ensures monto > 0.0 ==> PublicQuoteOf(monto, plazo).totalIntereses > 0.0
    ensures monto > 0.0 ==> PublicQuoteOf(monto, plazo).cuotaMensual > 0.0
  {
    InstallmentAmortizes(monto, MonthlyRate(PUBLIC_ANNUAL_RATE), plazo);
    InstallmentCoversPrincipal(monto, MonthlyRate(PUBLIC_ANNUAL_RATE), plazo);
    InstallmentSign(monto, MonthlyRate(PUBLIC_ANNUAL_RATE), plazo);
  }

  /** The request the public simulator sends to the store: the monthly rate is the annual one over 12. */
  datatype SimulationRequest = SimulationRequest(monto: real, tasaInteres: real, plazoMeses: nat)

  function PublicRequest(monto: real, plazo: nat): (r: SimulationRequest)
    ensures r.monto == monto && r.plazoMeses == plazo
    ensures r.tasaInteres * 12.0 == PUBLIC_ANNUAL_RATE
  {
    SimulationRequest(monto, PUBLIC_ANNUAL_RATE / 12.0, plazo)
  }

  // ---------------------------------------------------------------------
  // The private simulator.
  // ---------------------------------------------------------------------

  /**
   * `TASAS_PREFERENCIALES[user?.cliente?.tipo || 'REGULAR']`: the monthly
   * percentage for the client's type; no type (or an empty one) counts as
   * REGULAR, and a type the table lacks has no rate.
   */
  function PreferentialRate(tipo: Option<string>): (r: Option<real>)
    ensures tipo.None? || tipo.value == "" ==> r == Some(1.5)
    ensures tipo == Some("REGULAR") ==> r == Some(1.5)
    ensures tipo == Some("PREMIUM") ==> r == Some(1.2)
    ensures tipo == Some("VIP") ==> r == Some(1.0)
    ensures r.None? <==> tipo.Some? && tipo.value !in {"", "REGULAR", "PREMIUM", "VIP"}
    ensures r.Some? ==> 1.0 <= r.value <= 1.5
  {
    var key := if tipo.None? || tipo.value == "" then "REGULAR" else tipo.value;
    if key == "REGULAR" then Some(1.5)
    else if key == "PREMIUM" then Some(1.2)
    else if key == "VIP" then Some(1.0)
    else None
  }

  /** A better client type never pays a higher rate. */
  lemma PreferentialRatesOrdered()
    ensures PreferentialRate(Some("VIP")).value < PreferentialRate(Some("PREMIUM")).value
            < PreferentialRate(Some("REGULAR")).value
  {}

  /** The private `calculateMonthlyPayment`, from a monthly fraction. */
  function PrivateMonthlyPayment(principal: real, monthlyRate: real, months: nat): (p: real)
    requires months >= 1 && monthlyRate >= 0.0
    ensures p == Installment(principal, monthlyRate, months)
    ensures monthlyRate == 0.0 ==> p == principal / (months as real)
  {
    if monthlyRate == 0.0 then principal / (months as real)
    else
      var numerator := principal * monthlyRate * Pow(1.0 + monthlyRate, months);
      var denominator := Pow(1.0 + monthlyRate, months) - 1.0;
      PowAboveOne(1.0 + monthlyRate, months);
      numerator / denominator
  }

  /** Each insurance costs 2% of the base instalment. */
  const INSURANCE_SHARE: real := 0.02

  function InsuranceCost(selected: bool, cuotaBase: real): (c: real)
    ensures selected ==> c == INSURANCE_SHARE * cuotaBase
    ensures !selected ==> c == 0.0
  {
    if selected then cuotaBase * 0.02 else 0.0
  }

  datatype PrivateQuote = PrivateQuote(tasaAnual: real, cuotaBase: real, costoDesgravamen: real,
                                       costoCesantia: real, cuotaFinal: real, totalPagar: real,
                                       totalIntereses: real, costoTotalCredito: real)

  /** The figures common to both versions of the private quote, everything but the total cost. */
  function PrivateFigures(monto: real, plazo: nat, tasaMensual: real,
                          desgravamen: bool, cesantia: bool): (q: PrivateQuote)
    requires plazo >= 1 && tasaMensual >= 0.0
    ensures q.tasaAnual == tasaMensual * 12.0
    ensures q.cuotaBase == Installment(monto, tasaMensual / 100.0, plazo)
    ensures q.costoDesgravamen == InsuranceCost(desgravamen, q.cuotaBase)
    ensures q.costoCesantia == InsuranceCost(cesantia, q.cuotaBase)
    ensures q.cuotaFinal == q.cuotaBase + q.costoDesgravamen + q.costoCesantia
    ensures !desgravamen && !cesantia ==> q.cuotaFinal == q.cuotaBase
    ensures q.totalPagar == q.cuotaFinal * (plazo as real)
    ensures q.totalIntereses == q.totalPagar - monto
    ensures q.costoTotalCredito == 0.0
  {
    var cuotaBase := PrivateMonthlyPayment(monto, tasaMensual / 100.0, plazo);
    var costoDesgravamen := InsuranceCost(desgravamen, cuotaBase);
    var costoCesantia := InsuranceCost(cesantia, cuotaBase);
    var cuotaFinal := cuotaBase + costoDesgravamen + costoCesantia;
    var totalPagar := cuotaFinal * (plazo as real);
    PrivateQuote(tasaMensual * 12.0, cuotaBase, costoDesgravamen, costoCesantia, cuotaFinal,
                 totalPagar, totalPagar - monto, 0.0)
  }

  /**
   * The private quote as the component computes it: the total cost of the
   * credit adds the insurances for every month on top of `totalIntereses`,
   * which already holds them.
   */
  function PrivateQuoteAsWritten(monto: real, plazo: nat, tasaMensual: real,
                                 desgravamen: bool, cesantia: bool): (q: PrivateQuote)
    requires plazo >= 1 && tasaMensual >= 0.0
    ensures q == PrivateFigures(monto, plazo, tasaMensual, desgravamen, cesantia)
                   .(costoTotalCredito := q.costoTotalCredito)
    ensures q.costoTotalCredito == q.totalIntereses + (q.costoDesgravamen + q.costoCesantia) * (plazo as real)
  {
    var q := PrivateFigures(monto, plazo, tasaMensual, desgravamen, cesantia);
    q.(costoTotalCredito := q.totalIntereses + (q.costoDesgravamen + q.costoCesantia) * (plazo as real))
  }

  /** The private quote with the total cost counted once: everything paid beyond the amount. */
  function PrivateQuoteOf(monto: real, plazo: nat, tasaMensual: real,
                          desgravamen: bool, cesantia: bool): (q: PrivateQuote)
    requires plazo >= 1 && tasaMensual >= 0.0
    ensures q == PrivateFigures(monto, plazo, tasaMensual, desgravamen, cesantia)
                   .(costoTotalCredito := q.costoTotalCredito)
    ensures q.costoTotalCredito == q.totalPagar - monto
  {
    var q := PrivateFigures(monto, plazo, tasaMensual, desgravamen, cesantia);
    q.(costoTotalCredito := q.totalPagar - monto)
  }

  /**
   * As written, the total cost exceeds what the client pays beyond the
   * amount by the insurance premiums of the whole term, whenever an
   * insurance is selected on a positive amount at a non-negative rate.
   */
  lemma InsuranceCountedTwice(monto: real, plazo: nat, tasaMensual: real, desgravamen: bool, cesantia: bool)
    requires plazo >= 1 && tasaMensual >= 0.0 && monto > 0.0 && (desgravamen || cesantia)
    ensures var q := PrivateQuoteAsWritten(monto, plazo, tasaMensual, desgravamen, cesantia);
            q.costoTotalCredito - (q.totalPagar - monto) == (q.costoDesgravamen + q.costoCesantia) * (plazo as real)
    ensures var q := PrivateQuoteAsWritten(monto, plazo, tasaMensual, desgravamen, cesantia);
            q.costoTotalCredito > q.totalPagar - monto
  {
    var q := PrivateQuoteAsWritten(monto, plazo, tasaMensual, desgravamen, cesantia);
    InstallmentSign(monto, tasaMensual / 100.0, plazo);
    assert q.costoDesgravamen + q.costoCesantia > 0.0;
    MulPositive(q.costoDesgravamen + q.costoCesantia, plazo as real);
  }

  /**
   * Counted once, the total cost splits into the interest on the base
   * instalment and the insurance premiums of the whole term; with no
   * insurance it is the interest.
   */
  lemma TotalCostSplits(monto: real, plazo: nat, tasaMensual: real, desgravamen: bool, cesantia: bool)
    requires plazo >= 1 && tasaMensual >= 0.0
    ensures var q := PrivateQuoteOf(monto, plazo, tasaMensual, desgravamen, cesantia);
            q.costoTotalCredito == (q.cuotaBase * (plazo as real) - monto)
                                   + (q.costoDesgravamen + q.costoCesantia) * (plazo as real)
    ensures var q := PrivateQuoteOf(monto, plazo, tasaMensual, desgravamen, cesantia);
            !desgravamen && !cesantia ==> q.costoTotalCredito == q.totalIntereses
  {
    var q := PrivateQuoteOf(monto, plazo, tasaMensual, desgravamen, cesantia);
    var n := plazo as real;
    assert q.totalPagar == (q.cuotaBase + q.costoDesgravamen + q.costoCesantia) * n;
    assert (q.cuotaBase + q.costoDesgravamen + q.costoCesantia) * n
        == q.cuotaBase * n + (q.costoDesgravamen + q.costoCesantia) * n;
  }

  /** A positive amount at a non-negative rate is never quoted a negative cost. */
  lemma TotalCostNonNegative(monto: real, plazo: nat, tasaMensual: real, desgravamen: bool, cesantia: bool)
    requires plazo >= 1 && tasaMensual >= 0.0 && monto >= 0.0
    ensures PrivateQuoteOf(monto, plazo, tasaMensual, desgravamen, cesantia).costoTotalCredito >= 0.0
  {
    var q := PrivateQuoteOf(monto, plazo, tasaMensual, desgravamen, cesantia);
    InstallmentCoversPrincipal(monto, tasaMensual / 100.0, plazo);
    InstallmentSign(monto, tasaMensual / 100.0, plazo);
    MulNonNegative(q.costoDesgravamen + q.costoCesantia, plazo as real);
    TotalCostSplits(monto, plazo, tasaMensual, desgravamen, cesantia);
  }

  /**
   * The estimated CAE: the total cost over the amount, annualised over the
   * term, in percent. The amount is never zero: the component starts from
   * `current?.monto || 5000000` and the slider stays above 1,000,000.
   */
  function CaeEstimate(q: PrivateQuote, monto: real, plazo: nat): (cae: real)
    requires monto != 0.0 && plazo >= 1
    ensures cae * monto * (plazo as real) == q.costoTotalCredito * 1200.0
  {
    var cae := (q.costoTotalCredito / monto) * (12.0 / (plazo as real)) * 100.0;
    assert (q.costoTotalCredito / monto) * monto == q.costoTotalCredito;
    assert (12.0 / (plazo as real)) * (plazo as real) == 12.0;
    cae
  }

  /** On the sliders' range the CAE estimate is defined and never negative. */
  lemma SliderCaeEstimate(monto: real, plazo: nat, tasaMensual: real, desgravamen: bool, cesantia: bool)
    requires MIN_AMOUNT <= monto <= MAX_AMOUNT && MIN_TERM <= plazo <= MAX_TERM
    requires tasaMensual >= 0.0
    ensures monto != 0.0 && plazo >= 1
    ensures CaeEstimate(PrivateQuoteOf(monto, plazo, tasaMensual, desgravamen, cesantia), monto, plazo) >= 0.0
  {
    TotalCostNonNegative(monto, plazo, tasaMensual, desgravamen, cesantia);
    var q := PrivateQuoteOf(monto, plazo, tasaMensual, desgravamen, cesantia);
    var cae := CaeEstimate(q, monto, plazo);
    if cae < 0.0 {
      MulNegPos(cae, monto);
      MulNegPos(cae * monto, plazo as real);
      assert false;
    }
  }

  /** A REGULAR client without insurance is quoted the same instalment as the public simulator. */
  lemma RegularMatchesPublic(monto: real, plazo: nat)
    requires plazo >= 1
    ensures PrivateQuoteOf(monto, plazo, PreferentialRate(None).value, false, false).cuotaFinal
            == PublicQuoteOf(monto, plazo).cuotaMensual
  {
    assert MonthlyRate(PUBLIC_ANNUAL_RATE) == 1.5 / 100.0;
  }

  // ---------------------------------------------------------------------
  // Starting a loan request from the private simulator.
  // ---------------------------------------------------------------------

  /** The form data `handleComenzarSolicitud` writes: the quote's figures, a consumer loan and no reason yet. */
  function ApplicationPatch(monto: real, plazo: nat, tasaMensual: real): (f: AccountStore.LoanForm)
    ensures f.montoSolicitado == Some(monto) && f.plazoMeses == Some(plazo as real)
    ensures f.tasaInteres == Some(tasaMensual) && f.tipoCredito == Some("CONSUMO")
    ensures f.motivo == Some("")
  {
    AccountStore.LoanForm(Some("CONSUMO"), Some(monto), Some(plazo as real), Some(tasaMensual), Some(""))
  }

  /** `handleComenzarSolicitud`: resets the wizard, then fills its form from the quote. */
  method StartApplication(store: AccountStore.Store, monto: real, plazo: nat, tasaMensual: real)
    requires store.Valid()
    modifies store
    ensures store.Valid()
    ensures store.loanRequest == AccountStore.WithFormData(AccountStore.InitialWizard,
                                                           ApplicationPatch(monto, plazo, tasaMensual))
    ensures store.session == old(store.session) && store.simulations == old(store.simulations)
    ensures store.loans == old(store.loans)
  {
    store.ResetLoanWizard();
    store.SetLoanFormData(ApplicationPatch(monto, plazo, tasaMensual));
  }

  /**
   * The wizard started from the simulator is on step 1 and cannot be
   * submitted until a reason is typed in: the reason it is given is empty.
   */
  lemma StartedApplicationNeedsReason(monto: real, plazo: nat, tasaMensual: real, outcome: AccountStore.Outcome<()>)
    ensures var w := AccountStore.WithFormData(AccountStore.InitialWizard, ApplicationPatch(monto, plazo, tasaMensual));
            w.currentStep == 1 && AccountStore.MissingRequired(w.formData)
            && !AccountStore.Submitted(w, outcome).1
  {}
}
