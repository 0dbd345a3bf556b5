/**
 * The simulator screen's own logic: which institutions each credit type
 * offers, the repair of an institution the credit type does not offer, the
 * live preview, the insight cards and the ranked history.
 */
module CreditSimulatorView {
  import opened Wrappers
  import opened LoanMath
  import opened History
  import opened Benchmarks
  import opened SimulatorStore

  // ---------------------------------------------------------------------
  // `institutionOptions`
  // ---------------------------------------------------------------------

  /** The institutions offered for a credit type; none for a key the record lacks. */
  function InstitutionOptions(creditType: string): (r: Option<seq<string>>)
    ensures r.Some? ==> |r.value| >= 1 && r.value[0] == BANCO_TRADICIONAL
  {
    if creditType == CONSUMO then Some([BANCO_TRADICIONAL, FINTECH])
    else if creditType == HIPOTECARIO then Some([BANCO_TRADICIONAL, COOPERATIVA])
    else if creditType == CONSOLIDACION then Some([BANCO_TRADICIONAL])
    else if creditType == AUTOMOTRIZ then Some([BANCO_TRADICIONAL, FINANCIERA_AUTOMOTRIZ])
    else if creditType == EDUCACION then Some([BANCO_TRADICIONAL, INSTITUCION_ESTATAL])
    else None
  }

  predicate Allowed(creditType: string, institution: string) {
    InstitutionOptions(creditType).Some? && institution in InstitutionOptions(creditType).value
  }

  /** Every row of the benchmark table is a selectable pair. */
  lemma TableRowsAllowed(b: RateBenchmark)
    requires b in ChileanRateBenchmarks
    ensures Allowed(b.creditType, b.institution)
  {
    var i :| 0 <= i < |ChileanRateBenchmarks| && ChileanRateBenchmarks[i] == b;
    if i == 0 { assert b == ChileanRateBenchmarks[0]; }
    else if i == 1 { assert b == ChileanRateBenchmarks[1]; }
    else if i == 2 { assert b == ChileanRateBenchmarks[2]; }
    else if i == 3 { assert b == ChileanRateBenchmarks[3]; }
    else if i == 4 { assert b == ChileanRateBenchmarks[4]; }
    else if i == 5 { assert b == ChileanRateBenchmarks[5]; }
    else if i == 6 { assert b == ChileanRateBenchmarks[6]; }
    else if i == 7 { assert b == ChileanRateBenchmarks[7]; }
    else { assert b == ChileanRateBenchmarks[8]; }
  }

  /** The selectable pairs are exactly the keys of the benchmark table. */
  lemma AllowedIffBenchmark(creditType: string, institution: string)
    ensures Allowed(creditType, institution) <==> FindBenchmark(creditType, institution).Some?
  {
    var found := FindBenchmark(creditType, institution);
    if found.Some? {
      TableRowsAllowed(found.value);
    }
    if Allowed(creditType, institution) {
      var k :=
        if creditType == CONSUMO then (if institution == BANCO_TRADICIONAL then 0 else 1)
        else if creditType == HIPOTECARIO then (if institution == BANCO_TRADICIONAL then 2 else 3)
        else if creditType == CONSOLIDACION then 4
        else if creditType == AUTOMOTRIZ then (if institution == BANCO_TRADICIONAL then 5 else 6)
        else (if institution == BANCO_TRADICIONAL then 7 else 8);
      assert HasKey(ChileanRateBenchmarks[k], creditType, institution);
      assert ChileanRateBenchmarks[k] in ChileanRateBenchmarks;
    }
  }

  // ---------------------------------------------------------------------
  // The repair effect.
  // ---------------------------------------------------------------------

  /** The input after the repair, for a credit type the record knows. */
  function Repaired(input: SimulationInput): (r: SimulationInput)
    requires InstitutionOptions(input.creditType).Some?
    ensures Allowed(r.creditType, r.institution)
    ensures Allowed(input.creditType, input.institution) ==> r == input
    ensures !Allowed(input.creditType, input.institution) ==> r.institution == BANCO_TRADICIONAL
    ensures r == input.(institution := r.institution)
  {
    var allowed := InstitutionOptions(input.creditType).value;
    if input.institution in allowed then input else input.(institution := allowed[0])
  }

  /** Repairing a repaired input changes nothing. */
  lemma RepairedIdempotent(input: SimulationInput)
    requires InstitutionOptions(input.creditType).Some?
    ensures Repaired(Repaired(input)) == Repaired(input)
  {}

  /** After the repair the pair always has a benchmark to compare against. */
  lemma RepairedHasBenchmark(input: SimulationInput)
    requires InstitutionOptions(input.creditType).Some?
    ensures FindBenchmark(Repaired(input).creditType, Repaired(input).institution).Some?
  {
    AllowedIffBenchmark(Repaired(input).creditType, Repaired(input).institution);
  }

  /**
   * The effect that keeps the institution consistent with the credit type.
   * For a credit type the record lacks, `allowedInstitutions.includes` throws
   * a TypeError: `crashed` is set and the store is left as it was.
   */
  method RepairInstitution(store: Store) returns (crashed: bool)
    requires store.Valid()
    modifies store
    ensures store.Valid()
    ensures crashed <==> InstitutionOptions(old(store.input).creditType).None?
    ensures crashed ==> store.input == old(store.input)
    ensures !crashed ==> store.input == Repaired(old(store.input))
    ensures store.history == old(store.history) && store.optimalId == old(store.optimalId)
    ensures store.currentResult == old(store.currentResult)
  {
    var allowed := InstitutionOptions(store.input.creditType);
    if allowed.None? {
      return true;
    }
    crashed := false;
    if store.input.institution !in allowed.value {
      store.SetField(SetInstitution(allowed.value[0]));
    }
  }

  /**
   * The first mount of the screen, with `stored` the history saved in the
   * browser. The render builds the institution menu from
   * `institutionOptions[input.creditType]`, which throws a TypeError for a
   * credit type the record lacks. Only a render that succeeds is followed by
   * the effects, in their order: `hydrate()`, then the repair.
   */
  method Mount(store: Store, stored: seq<SimulationResult>) returns (crashed: bool)
    requires store.Valid()
    modifies store
    ensures store.Valid()
    ensures crashed <==> InstitutionOptions(old(store.input).creditType).None?
    ensures crashed ==> store.input == old(store.input)
    ensures crashed ==> store.history == old(store.history) && store.optimalId == old(store.optimalId)
    ensures !crashed ==> store.input == Repaired(old(store.input))
    ensures !crashed ==> store.history == stored[..Min(HISTORY_LIMIT, |stored|)]
    ensures !crashed ==> store.optimalId == OptimalId(store.history)
    ensures store.currentResult == old(store.currentResult)
  {
    var menu := InstitutionOptions(store.input.creditType);
    if menu.None? {
      return true;
    }
    store.Hydrate(stored);
    crashed := RepairInstitution(store);
  }

  /** Mounting the screen on the store as shipped throws on the first render, whatever is saved. */
  method MountShippedStore(stored: seq<SimulationResult>) returns (crashed: bool)
    ensures crashed
  {
    var store := new Store.AsShipped();
    DefaultCreditTypeAsWrittenHasNoOptions();
    crashed := Mount(store, stored);
  }

  /**
   * Mounting on the corrected store renders, leaves the default form as it
   * is and shows the newest ten saved entries.
   */
  method MountCorrectedStore(stored: seq<SimulationResult>)
    returns (crashed: bool, input: SimulationInput, history: seq<SimulationResult>)
    ensures !crashed && input == DefaultInput
    ensures history == stored[..Min(HISTORY_LIMIT, |stored|)]
  {
    var store := new Store();
    DefaultNeedsNoRepair();
    crashed := Mount(store, stored);
    input := store.input;
    history := store.history;
  }

  /** With the default as shipped, the record has no entry: the effect throws. */
  lemma DefaultCreditTypeAsWrittenHasNoOptions()
    ensures InstitutionOptions(DefaultInputAsWritten.creditType).None?
    ensures InstitutionOptions(DefaultCreditTypeAsWrittenJs).None?
  {
    DefaultAsWrittenHasNoBenchmark();
    AllowedIffBenchmark(DefaultInputAsWritten.creditType, BANCO_TRADICIONAL);
    AllowedIffBenchmark(DefaultCreditTypeAsWrittenJs, BANCO_TRADICIONAL);
  }

  /** With the corrected default the effect leaves the form as it is. */
  lemma DefaultNeedsNoRepair()
    ensures InstitutionOptions(DefaultInput.creditType).Some?
    ensures Repaired(DefaultInput) == DefaultInput
  {}

  // ---------------------------------------------------------------------
  // The live preview.
  // ---------------------------------------------------------------------

  const PREVIEW_ID: string := "preview"

  /** The result shown while editing: the current metrics under the id "preview". */
  function Preview(input: SimulationInput, createdAt: string): (r: SimulationResult)
    ensures r.input == input && r.id == PREVIEW_ID
    ensures forall freshId, at :: r.metrics == BuildSimulationResult(input, None, freshId, at).metrics
  {
    BuildSimulationResult(input, Some(PREVIEW_ID), PREVIEW_ID, createdAt)
  }

  // ---------------------------------------------------------------------
  // `generateInsights`
  // ---------------------------------------------------------------------

  datatype Tone = Positive | Warning | Info

  /** The card titles `generateInsights` can produce. */
  datatype Title =
    | TasaCompetitiva | ReducirTasa | SinBenchmark
    | CargaAlta | BalanceSaludable | EspacioInvertir
    | SimulacionOptima | ComparaMejorCae

  /** The text shown for each title. */
  function TitleText(t: Title): string {
    match t
    case TasaCompetitiva => "Tasa competitiva"
    case ReducirTasa => "Oportunidad de reducir tasa"
    case SinBenchmark => "Benchmark no disponible"
    case CargaAlta => "Carga mensual alta"
    case BalanceSaludable => "Balance saludable"
    case EspacioInvertir => "Espacio para invertir"
    case SimulacionOptima => "Simulaci\U{00F3}n \U{00F3}ptima"
    case ComparaMejorCae => "Compara con tu mejor CAE"
  }

  /** No two titles share a text. */
  lemma TitleTextDistinct(a: Title, b: Title)
    ensures TitleText(a) == TitleText(b) <==> a == b
  {
    if a != b {
      assert TitleText(a)[0] != TitleText(b)[0] || TitleText(a)[1] != TitleText(b)[1];
    }
  }

  datatype Insight = Insight(title: Title, tone: Tone)

  function Abs(x: real): real {
    if x < 0.0 then -x else x
  }

  /** The least CAE in a non-empty history, computed independently of any sort. */
  function MinCae(history: seq<SimulationResult>): (m: real)
    requires history != []
    ensures forall e :: e in history ==> m <= e.metrics.cae
    ensures exists e :: e in history && e.metrics.cae == m
  {
    if |history| == 1 then history[0].metrics.cae
    else
      var rest := MinCae(history[1..]);
      assert forall e :: e in history ==> e == history[0] || e in history[1..];
      if history[0].metrics.cae <= rest then history[0].metrics.cae else rest
  }

  /** The head of the CAE sort carries the least CAE. */
  lemma SortedHeadHasMinCae(history: seq<SimulationResult>)
    requires history != []
    ensures SortByCae(history)[0].metrics.cae == MinCae(history)
  {
    SortedHeadIsMinimum(history);
  }

  /** The benchmark card: how the rate compares with the table's average. */
  function BenchmarkInsight(preview: SimulationResult): (i: Insight)
    ensures var found := FindBenchmark(preview.input.creditType, preview.input.institution);
            && (i == Insight(SinBenchmark, Info) <==> found.None?)
            && (i.title == TasaCompetitiva <==> found.Some? && preview.input.rate <= found.value.averageRate)
            && (i.title == ReducirTasa <==> found.Some? && preview.input.rate > found.value.averageRate)
            && (i.title == ReducirTasa ==> i.tone == Warning)
            && (i.tone == Positive <==> found.Some? && preview.input.rate < found.value.averageRate)
            && (i.tone == Warning <==> found.Some? && preview.input.rate >= found.value.averageRate)
  {
    match CompareAgainstBenchmark(preview)
    case Some(comparison) =>
      if comparison.isBelow then
        Insight(TasaCompetitiva, if comparison.delta < 0.0 then Positive else Warning)
      else
        Insight(ReducirTasa, Warning)
    case None => Insight(SinBenchmark, Info)
  }

  /** The debt ratio card: 45% and above is a warning, 30% and above is healthy. */
  function DebtInsight(debtRatio: real): (i: Insight)
    ensures i == Insight(CargaAlta, Warning) <==> debtRatio >= 0.45
    ensures i == Insight(BalanceSaludable, Positive) <==> 0.3 <= debtRatio < 0.45
    ensures i == Insight(EspacioInvertir, Info) <==> debtRatio < 0.3
  {
    if debtRatio >= 0.45 then Insight(CargaAlta, Warning)
    else if debtRatio >= 0.3 then Insight(BalanceSaludable, Positive)
    else Insight(EspacioInvertir, Info)
  }

  /**
   * The history card: the preview is optimal when it carries the optimal id
   * or its CAE is within 0.01 of the least CAE recorded.
   */
  function HistoryInsight(preview: SimulationResult, history: seq<SimulationResult>,
                          optimalId: Option<string>): (i: Option<Insight>)
    ensures i.None? <==> history == []
    ensures i.Some? ==>
              ((i.value == Insight(SimulacionOptima, Positive))
               <==> optimalId == Some(preview.id) || Abs(preview.metrics.cae - MinCae(history)) < 0.01)
    ensures i.Some? ==>
              i.value == Insight(SimulacionOptima, Positive) || i.value == Insight(ComparaMejorCae, Info)
  {
    if history == [] then None
    else
      var optimal := SortByCae(history)[0];
      var delta := preview.metrics.cae - optimal.metrics.cae;
      var isCurrentOptimal := optimalId == Some(preview.id) || Abs(delta) < 0.01;
      SortedHeadHasMinCae(history);
      if isCurrentOptimal then Some(Insight(SimulacionOptima, Positive))
      else Some(Insight(ComparaMejorCae, Info))
  }

  /**
   * `generateInsights`: the benchmark card, the debt ratio card and, when
   * there is a history, the best-CAE card, in that order.
   */
  method GenerateInsights(preview: SimulationResult, history: seq<SimulationResult>,
                          optimalId: Option<string>) returns (insights: seq<Insight>)
    ensures |insights| == if history == [] then 2 else 3
    ensures insights[0] == BenchmarkInsight(preview)
    ensures insights[1] == DebtInsight(preview.metrics.debtRatio)
    ensures history != [] ==> Some(insights[2]) == HistoryInsight(preview, history, optimalId)
  {
    insights := [];
    insights := insights + [BenchmarkInsight(preview)];
    insights := insights + [DebtInsight(preview.metrics.debtRatio)];
    var card := HistoryInsight(preview, history, optimalId);
    if card.Some? {
      insights := insights + [card.value];
    }
  }

  // ---------------------------------------------------------------------
  // `rankedHistory`
  // ---------------------------------------------------------------------

  datatype RankedEntry = RankedEntry(entry: SimulationResult, rank: nat)

  function Entries(ranked: seq<RankedEntry>): (r: seq<SimulationResult>)
    ensures |r| == |ranked|
    ensures forall i :: 0 <= i < |r| ==> r[i] == ranked[i].entry
  {
    if ranked == [] then [] else [ranked[0].entry] + Entries(ranked[1..])
  }

  /** The history sorted by ascending CAE, ranked 1, 2, 3, ... */
  function RankedHistory(history: seq<SimulationResult>): (r: seq<RankedEntry>)
    ensures |r| == |history|
    ensures forall i :: 0 <= i < |r| ==> r[i].rank == i + 1
    ensures forall i, j :: 0 <= i < j < |r| ==> r[i].entry.metrics.cae <= r[j].entry.metrics.cae
    ensures multiset(Entries(r)) == multiset(history)
  {
    var sorted := SortByCae(history);
    SortByCaeSorted(history);
    SortByCaePermutes(history);
    var r := seq(|sorted|, i requires 0 <= i < |sorted| => RankedEntry(sorted[i], i + 1));
    assert Entries(r) == sorted;
    r
  }

  /** The entry ranked first is the one whose id the store keeps as optimal. */
  lemma TopRankIsOptimal(history: seq<SimulationResult>)
    requires history != []
    ensures OptimalId(history) == Some(RankedHistory(history)[0].entry.id)
  {
    assert RankedHistory(history)[0].entry == SortByCae(history)[0];
  }
}
