/**
 * The application store of the signed-in area: the session, the simulations
 * the backend returns, the four-step loan-request wizard and the loans. The
 * backend is not modelled: every action that awaits it takes the reply as a
 * parameter, an `Outcome`, and the model states the store after the reply
 * has been applied. Records the backend sends (a user, a simulation, a
 * loan, an instalment) are opaque string maps.
 */
module AccountStore {
  import opened Wrappers

  /** A JSON record whose shape the store never inspects. */
  type Record = map<string, string>

  /**
   * What an awaited backend call produced: a successful reply with its
   * payload, a reply with `success` false (and maybe a message), or a thrown
   * exception (an `Error` with its message, or some other value).
   */
  datatype Outcome<T> = Succeeded(payload: T) | Declined(message: Option<string>) | Threw(error: Option<string>)

  /** `response.message || fallback`: an absent or empty message gives the fallback. */
  function ReplyMessage(message: Option<string>, fallback: string): (r: string)
    ensures message.Some? && message.value != "" ==> r == message.value
    ensures message.None? || message.value == "" ==> r == fallback
  {
    if message.Some? && message.value != "" then message.value else fallback
  }

  /** `error instanceof Error ? error.message : fallback`: an `Error`'s message is used even when empty. */
  function ThrownMessage(error: Option<string>, fallback: string): (r: string)
    ensures error.Some? ==> r == error.value
    ensures error.None? ==> r == fallback
  {
    if error.Some? then error.value else fallback
  }

  /** The error an outcome leaves behind, given the two fallbacks of the action. */
  function FailureMessage<T>(outcome: Outcome<T>, declined: string, thrown: string): (r: string)
    requires !outcome.Succeeded?
    ensures outcome.Declined? ==> r == ReplyMessage(outcome.message, declined)
    ensures outcome.Threw? ==> r == ThrownMessage(outcome.error, thrown)
  {
    if outcome.Declined? then ReplyMessage(outcome.message, declined) else ThrownMessage(outcome.error, thrown)
  }

  // ---------------------------------------------------------------------
  // The loan-request form and the wizard.
  // ---------------------------------------------------------------------

  /** A `Partial<LoanFormData>`: every field may be absent. Amounts, terms and rates are JavaScript numbers. */
  datatype LoanForm = LoanForm(tipoCredito: Option<string>, montoSolicitado: Option<real>,
                               plazoMeses: Option<real>, tasaInteres: Option<real>,
                               motivo: Option<string>)

  const NoFields: LoanForm := LoanForm(None, None, None, None, None)

  /** `{ ...formData, ...data }`: a field supplied by the patch replaces the stored one. */
  function MergeForm(form: LoanForm, patch: LoanForm): (r: LoanForm)
    ensures patch.tipoCredito.Some? ==> r.tipoCredito == patch.tipoCredito
    ensures patch.tipoCredito.None? ==> r.tipoCredito == form.tipoCredito
    ensures patch.montoSolicitado.Some? ==> r.montoSolicitado == patch.montoSolicitado
    ensures patch.montoSolicitado.None? ==> r.montoSolicitado == form.montoSolicitado
    ensures patch.plazoMeses.Some? ==> r.plazoMeses == patch.plazoMeses
    ensures patch.plazoMeses.None? ==> r.plazoMeses == form.plazoMeses
    ensures patch.tasaInteres.Some? ==> r.tasaInteres == patch.tasaInteres
    ensures patch.tasaInteres.None? ==> r.tasaInteres == form.tasaInteres
    ensures patch.motivo.Some? ==> r.motivo == patch.motivo
    ensures patch.motivo.None? ==> r.motivo == form.motivo
  {
    LoanForm(if patch.tipoCredito.Some? then patch.tipoCredito else form.tipoCredito,
             if patch.montoSolicitado.Some? then patch.montoSolicitado else form.montoSolicitado,
             if patch.plazoMeses.Some? then patch.plazoMeses else form.plazoMeses,
             if patch.tasaInteres.Some? then patch.tasaInteres else form.tasaInteres,
             if patch.motivo.Some? then patch.motivo else form.motivo)
  }

  /** Merging an empty patch changes nothing. */
  lemma MergeNothing(form: LoanForm)
    ensures MergeForm(form, NoFields) == form
  {}

  /** Merging the same patch twice is merging it once; a later patch wins over an earlier one. */
  lemma MergeIdempotent(form: LoanForm, patch: LoanForm)
    ensures MergeForm(MergeForm(form, patch), patch) == MergeForm(form, patch)
  {}

  lemma MergeLaterWins(form: LoanForm, first: LoanForm, second: LoanForm)
    ensures MergeForm(MergeForm(form, first), second) == MergeForm(form, MergeForm(first, second))
  {}

  /** JavaScript falsiness of the fields `submitLoanRequest` checks: absent, empty text or zero. */
  predicate FalsyText(v: Option<string>) { v.None? || v.value == "" }
  predicate FalsyNumber(v: Option<real>) { v.None? || v.value == 0.0 }

  /** Some required field is missing: the submission is refused before any request. */
  predicate MissingRequired(form: LoanForm) {
    FalsyText(form.tipoCredito) || FalsyNumber(form.montoSolicitado) || FalsyNumber(form.plazoMeses)
    || FalsyNumber(form.tasaInteres) || FalsyText(form.motivo)
  }

  const MAX_STEPS: int := 4
  const REQUIRED_FIELDS_ERROR: string := "Please complete all required fields"
  const SUBMIT_DECLINED: string := "Failed to submit loan request"
  const SUBMIT_THREW: string := "Submission error"

  datatype Wizard = Wizard(currentStep: int, maxSteps: int, formData: LoanForm,
                           score: Option<real>, isLoading: bool, error: Option<string>)

  /** `initialLoanRequest`. */
  const InitialForm: LoanForm := LoanForm(Some("CONSUMO"), Some(0.0), Some(12.0), Some(0.0), Some(""))
  const InitialWizard: Wizard := Wizard(1, MAX_STEPS, InitialForm, None, false, None)

  /** The wizard's own invariant: a step between 1 and the four steps. */
  predicate StepInRange(w: Wizard) {
    w.maxSteps == MAX_STEPS && 1 <= w.currentStep <= w.maxSteps
  }

  /** The wizard starts on step 1 of 4, and its form cannot be submitted as it is. */
  lemma InitialWizardFacts()
    ensures StepInRange(InitialWizard) && InitialWizard.currentStep == 1 && InitialWizard.maxSteps == 4
    ensures MissingRequired(InitialWizard.formData)
  {}

  function Min(a: int, b: int): int { if a <= b then a else b }
  function Max(a: int, b: int): int { if a >= b then a else b }

  /** `nextStep`: one step forward, stopping at the last step. */
  function Advanced(w: Wizard): (r: Wizard)
    ensures r == w.(currentStep := r.currentStep)
    ensures w.currentStep < w.maxSteps ==> r.currentStep == w.currentStep + 1
    ensures w.currentStep >= w.maxSteps ==> r.currentStep == w.maxSteps
    ensures StepInRange(w) ==> StepInRange(r)
  {
    w.(currentStep := Min(w.currentStep + 1, w.maxSteps))
  }

  /** `prevStep`: one step back, stopping at step 1. */
  function Retreated(w: Wizard): (r: Wizard)
    ensures r == w.(currentStep := r.currentStep)
    ensures w.currentStep > 1 ==> r.currentStep == w.currentStep - 1
    ensures w.currentStep <= 1 ==> r.currentStep == 1
    ensures StepInRange(w) ==> StepInRange(r)
  {
    w.(currentStep := Max(w.currentStep - 1, 1))
  }

  /** `goToStep(step)`: the requested step, clamped to the wizard's range. */
  function Jumped(w: Wizard, step: int): (r: Wizard)
    ensures r == w.(currentStep := r.currentStep)
    ensures r.currentStep >= 1
    ensures w.maxSteps >= 1 ==> r.currentStep <= w.maxSteps
    ensures 1 <= step <= w.maxSteps ==> r.currentStep == step
    ensures step < 1 ==> r.currentStep == 1
    ensures step > w.maxSteps >= 1 ==> r.currentStep == w.maxSteps
  {
    w.(currentStep := Max(1, Min(step, w.maxSteps)))
  }

  /** Going forward and back returns to the same step, except from the last one. */
  lemma RetreatUndoesAdvance(w: Wizard)
    requires StepInRange(w) && w.currentStep < w.maxSteps
    ensures Retreated(Advanced(w)) == w
  {}

  lemma AdvanceUndoesRetreat(w: Wizard)
    requires StepInRange(w) && w.currentStep > 1
    ensures Advanced(Retreated(w)) == w
  {}

  /** Jumping to the step the wizard is on changes nothing; jumping twice is jumping once. */
  lemma JumpToCurrentStep(w: Wizard)
    requires StepInRange(w)
    ensures Jumped(w, w.currentStep) == w
  {}

  lemma JumpIdempotent(w: Wizard, step: int)
    ensures Jumped(Jumped(w, step), step) == Jumped(w, step)
  {}

  /** Pressing "next" `n` times. */
  function AdvancedTimes(w: Wizard, n: nat): (r: Wizard)
    ensures r == w.(currentStep := r.currentStep)
    decreases n
  {
    if n == 0 then w else AdvancedTimes(Advanced(w), n - 1)
  }

  /** `n` presses of "next" move `n` steps, never past the last: from step 1, three presses reach step 4. */
  lemma {:induction false} AdvancedTimesClamps(w: Wizard, n: nat)
    requires StepInRange(w)
    ensures AdvancedTimes(w, n).currentStep == Min(w.currentStep + n, w.maxSteps)
    ensures StepInRange(AdvancedTimes(w, n))
    decreases n
  {
    if n > 0 {
      AdvancedTimesClamps(Advanced(w), n - 1);
    }
  }

  /** `setLoanFormData(data)`: only the form changes. */
  function WithFormData(w: Wizard, patch: LoanForm): (r: Wizard)
    ensures r == w.(formData := MergeForm(w.formData, patch))
  {
    w.(formData := MergeForm(w.formData, patch))
  }

  /** `submitLoanRequest`: the wizard after the submission, with whether it succeeded. */
  function Submitted(w: Wizard, outcome: Outcome<()>): (r: (Wizard, bool))
    ensures r.1 <==> !MissingRequired(w.formData) && outcome.Succeeded?
    ensures MissingRequired(w.formData) ==> r.0 == w.(error := Some(REQUIRED_FIELDS_ERROR))
    ensures r.1 ==> r.0 == InitialWizard
    ensures !MissingRequired(w.formData) && !outcome.Succeeded? ==>
              r.0 == w.(isLoading := false, error := Some(FailureMessage(outcome, SUBMIT_DECLINED, SUBMIT_THREW)))
  {
    if MissingRequired(w.formData) then (w.(error := Some(REQUIRED_FIELDS_ERROR)), false)
    else if outcome.Succeeded? then (InitialWizard, true)
    else (w.(isLoading := false, error := Some(FailureMessage(outcome, SUBMIT_DECLINED, SUBMIT_THREW))), false)
  }

  /** A refused or failed submission keeps the step and the form, so the user can correct it. */
  lemma FailedSubmissionKeepsForm(w: Wizard, outcome: Outcome<()>)
    requires !Submitted(w, outcome).1
    ensures Submitted(w, outcome).0.formData == w.formData
    ensures Submitted(w, outcome).0.currentStep == w.currentStep
    ensures Submitted(w, outcome).0.error.Some?
  {}

  /** Submitting the untouched wizard is always refused, whatever the backend would say. */
  lemma UntouchedWizardIsRefused(outcome: Outcome<()>)
    ensures Submitted(InitialWizard, outcome) == (InitialWizard.(error := Some(REQUIRED_FIELDS_ERROR)), false)
  {
    InitialWizardFacts();
  }

  // ---------------------------------------------------------------------
  // The store.
  // ---------------------------------------------------------------------

  const SIMULATION_DECLINED: string := "Simulation failed"
  const SIMULATION_THREW: string := "Simulation error"

  /** The session slice: the token, the user and the state of the last sign-in. */
  datatype Session = Session(token: Option<string>, user: Option<Record>, isAuthenticated: bool,
                             authLoading: bool, authError: Option<string>)

  /** The simulation slice: the latest simulation and every one the backend returned. */
  datatype Simulations = Simulations(currentSimulation: Option<Record>, simulationHistory: seq<Record>,
                                     simulationLoading: bool, simulationError: Option<string>)

  /** The loans slice: the client's loans, the one opened, its instalments and the statistics. */
  datatype Loans = Loans(creditos: seq<Record>, currentCredito: Option<Record>, cuotas: seq<Record>,
                         estadisticas: Option<Record>, creditosLoading: bool, creditosError: Option<string>)

  const InitialSession: Session := Session(None, None, false, false, None)
  const InitialSimulations: Simulations := Simulations(None, [], false, None)
  const InitialLoans: Loans := Loans([], None, [], None, false, None)

  /** What `logout` does to the session: signed out, the error cleared, the loading flag kept. */
  function SignedOut(s: Session): (r: Session)
    ensures r.token.None? && r.user.None? && !r.isAuthenticated && r.authError.None?
    ensures r == InitialSession.(authLoading := s.authLoading)
  {
    s.(token := None, user := None, isAuthenticated := false, authError := None)
  }

  /** What `logout` does to the simulations: none current, an empty history, flag and error kept. */
  function ForgetSimulations(s: Simulations): (r: Simulations)
    ensures r.currentSimulation.None? && r.simulationHistory == []
    ensures r == InitialSimulations.(simulationLoading := s.simulationLoading, simulationError := s.simulationError)
  {
    s.(currentSimulation := None, simulationHistory := [])
  }

  /** What `logout` does to the loans: no loans, no details, no statistics; flag and error kept. */
  function ForgetLoans(l: Loans): (r: Loans)
    ensures r.creditos == [] && r.currentCredito.None? && r.cuotas == [] && r.estadisticas.None?
    ensures r == InitialLoans.(creditosLoading := l.creditosLoading, creditosError := l.creditosError)
  {
    l.(creditos := [], currentCredito := None, cuotas := [], estadisticas := None)
  }

  /** `updateProfile(userData)`: no user stays no user; otherwise the given keys overwrite. */
  function UpdatedUser(user: Option<Record>, patch: Record): (r: Option<Record>)
    ensures user.None? <==> r.None?
    ensures r.Some? ==> r.value.Keys == user.value.Keys + patch.Keys
    ensures r.Some? ==> forall k :: k in patch ==> r.value[k] == patch[k]
    ensures r.Some? ==> forall k :: k in user.value && k !in patch ==> r.value[k] == user.value[k]
  {
    if user.Some? then Some(user.value + patch) else None
  }

  /** Updating with the same fields again changes nothing more. */
  lemma UpdatedUserIdempotent(user: Option<Record>, patch: Record)
    ensures UpdatedUser(UpdatedUser(user, patch), patch) == UpdatedUser(user, patch)
  {
    if user.Some? {
      assert (user.value + patch) + patch == user.value + patch;
    }
  }

  class Store {
    var session: Session
    var simulations: Simulations
    var loanRequest: Wizard
    var loans: Loans

    /** The wizard's step stays within its four steps. */
    predicate Valid()
      reads this
    {
      StepInRange(loanRequest)
    }

    constructor ()
      ensures Valid()
      ensures session == InitialSession && simulations == InitialSimulations
      ensures loanRequest == InitialWizard && loans == InitialLoans
    {
      session := InitialSession;
      simulations := InitialSimulations;
      loanRequest := InitialWizard;
      loans := InitialLoans;
    }

    method NextStep()
      requires Valid()
      modifies this
      ensures Valid() && loanRequest == Advanced(old(loanRequest))
      ensures session == old(session) && simulations == old(simulations) && loans == old(loans)
    {
      loanRequest := loanRequest.(currentStep := Min(loanRequest.currentStep + 1, loanRequest.maxSteps));
    }

    method PrevStep()
      requires Valid()
      modifies this
      ensures Valid() && loanRequest == Retreated(old(loanRequest))
      ensures session == old(session) && simulations == old(simulations) && loans == old(loans)
    {
      loanRequest := loanRequest.(currentStep := Max(loanRequest.currentStep - 1, 1));
    }

    method GoToStep(step: int)
      requires Valid()
      modifies this
      ensures Valid() && loanRequest == Jumped(old(loanRequest), step)
      ensures session == old(session) && simulations == old(simulations) && loans == old(loans)
    {
      var target := Max(1, Min(step, loanRequest.maxSteps));
      loanRequest := loanRequest.(currentStep := target);
    }

    method SetLoanFormData(patch: LoanForm)
      requires Valid()
      modifies this
      ensures Valid() && loanRequest == WithFormData(old(loanRequest), patch)
      ensures session == old(session) && simulations == old(simulations) && loans == old(loans)
    {
      loanRequest := loanRequest.(formData := MergeForm(loanRequest.formData, patch));
    }

    /**
     * `submitLoanRequest`, with the reply of the create call. On success the
     * wizard is reset; reloading the loans afterwards is not part of this model.
     */
    method SubmitLoanRequest(outcome: Outcome<()>) returns (ok: bool)
      requires Valid()
      modifies this
      ensures Valid() && (loanRequest, ok) == Submitted(old(loanRequest), outcome)
      ensures session == old(session) && simulations == old(simulations) && loans == old(loans)
    {
      var form := loanRequest.formData;
      if FalsyText(form.tipoCredito) || FalsyNumber(form.montoSolicitado) || FalsyNumber(form.plazoMeses)
         || FalsyNumber(form.tasaInteres) || FalsyText(form.motivo) {
        loanRequest := loanRequest.(error := Some(REQUIRED_FIELDS_ERROR));
        return false;
      }
      loanRequest := loanRequest.(isLoading := true, error := None);
      match outcome
      case Succeeded(_) =>
        loanRequest := InitialWizard;
        ok := true;
      case Declined(message) =>
        loanRequest := loanRequest.(isLoading := false, error := Some(ReplyMessage(message, SUBMIT_DECLINED)));
        ok := false;
      case Threw(error) =>
        loanRequest := loanRequest.(isLoading := false, error := Some(ThrownMessage(error, SUBMIT_THREW)));
        ok := false;
    }

    method ResetLoanWizard()
      modifies this
      ensures Valid() && loanRequest == InitialWizard
      ensures session == old(session) && simulations == old(simulations) && loans == old(loans)
    {
      loanRequest := InitialWizard;
    }

    method UpdateProfile(patch: Record)
      modifies this
      ensures session == old(session).(user := UpdatedUser(old(session).user, patch))
      ensures simulations == old(simulations) && loanRequest == old(loanRequest) && loans == old(loans)
    {
      var user := session.user;
      session := session.(user := if user.Some? then Some(user.value + patch) else None);
    }

    /**
     * `simulateLoan`, with the reply of the simulate call: a simulation the
     * backend returns becomes the current one and is put in front of the
     * history; a failure only records its message.
     */
    method SimulateLoan(outcome: Outcome<Record>) returns (ok: bool)
      modifies this
      ensures ok <==> outcome.Succeeded?
      ensures ok ==> simulations == Simulations(Some(outcome.payload),
                                                [outcome.payload] + old(simulations).simulationHistory,
                                                false, None)
      ensures !ok ==> simulations == old(simulations).(simulationLoading := false,
                                                       simulationError := Some(FailureMessage(outcome, SIMULATION_DECLINED, SIMULATION_THREW)))
      ensures session == old(session) && loanRequest == old(loanRequest) && loans == old(loans)
    {
      simulations := simulations.(simulationLoading := true, simulationError := None);
      match outcome
      case Succeeded(simulation) =>
        simulations := simulations.(currentSimulation := Some(simulation),
                                    simulationHistory := [simulation] + simulations.simulationHistory,
                                    simulationLoading := false, simulationError := None);
        ok := true;
      case Declined(message) =>
        simulations := simulations.(simulationLoading := false,
                                    simulationError := Some(ReplyMessage(message, SIMULATION_DECLINED)));
        ok := false;
      case Threw(error) =>
        simulations := simulations.(simulationLoading := false,
                                    simulationError := Some(ThrownMessage(error, SIMULATION_THREW)));
        ok := false;
    }

    method ClearSimulation()
      modifies this
      ensures simulations == old(simulations).(currentSimulation := None, simulationError := None)
      ensures session == old(session) && loanRequest == old(loanRequest) && loans == old(loans)
    {
      simulations := simulations.(currentSimulation := None, simulationError := None);
    }

    /**
     * `logout`: the session, the simulations, the wizard and the loans are
     * cleared; the loading flags and the simulation and loan errors stay.
     */
    method Logout()
      modifies this
      ensures Valid()
      ensures session == SignedOut(old(session)) && simulations == ForgetSimulations(old(simulations))
      ensures loanRequest == InitialWizard && loans == ForgetLoans(old(loans))
    {
      session := session.(token := None, user := None, isAuthenticated := false, authError := None);
      simulations := simulations.(currentSimulation := None, simulationHistory := []);
      loanRequest := InitialWizard;
      loans := loans.(creditos := [], currentCredito := None, cuotas := [], estadisticas := None);
    }

    /** `reset`: every field back to its initial value. */
    method Reset()
      modifies this
      ensures Valid()
      ensures session == InitialSession && simulations == InitialSimulations
      ensures loanRequest == InitialWizard && loans == InitialLoans
    {
      session := InitialSession;
      simulations := InitialSimulations;
      loanRequest := InitialWizard;
      loans := InitialLoans;
    }
  }
}
