/**
 * The simulator's store: the form input, the bounded history, the id of the
 * cheapest simulation by CAE, and the result last computed or loaded.
 */
module SimulatorStore {
  import opened Wrappers
  import opened LoanMath
  import opened History
  import opened Benchmarks

  // ---------------------------------------------------------------------
  // Ordering by CAE: `slice().sort((a, b) => a.cae - b.cae)`, a stable sort.
  // ---------------------------------------------------------------------

  predicate SortedByCae(s: seq<SimulationResult>) {
    forall i, j :: 0 <= i < j < |s| ==> s[i].metrics.cae <= s[j].metrics.cae
  }

  /** Putting an entry no dearer than the head in front keeps a sequence sorted. */
  lemma ConsSorted(x: SimulationResult, t: seq<SimulationResult>)
    requires SortedByCae(t)
    requires t == [] || x.metrics.cae <= t[0].metrics.cae
    ensures SortedByCae([x] + t)
  {
    var r := [x] + t;
    forall i, j | 0 <= i < j < |r| ensures r[i].metrics.cae <= r[j].metrics.cae {
      if i == 0 && j > 1 {
        assert r[j] == t[j - 1] && r[1] == t[0];
      }
    }
  }

  /** Inserts `e` before the first entry whose CAE is not below its own. */
  function InsertByCae(e: SimulationResult, s: seq<SimulationResult>): (r: seq<SimulationResult>)
    ensures |r| == |s| + 1
    ensures r[0] == (if s == [] || e.metrics.cae <= s[0].metrics.cae then e else s[0])
  {
    if s == [] then [e]
    else if e.metrics.cae <= s[0].metrics.cae then [e] + s
    else [s[0]] + InsertByCae(e, s[1..])
  }

  /** Inserting into a sorted sequence keeps it sorted. */
  lemma {:induction false} InsertByCaeSorted(e: SimulationResult, s: seq<SimulationResult>)
    requires SortedByCae(s)
    ensures SortedByCae(InsertByCae(e, s))
  {
    if s == [] {
    } else if e.metrics.cae <= s[0].metrics.cae {
      ConsSorted(e, s);
    } else {
      assert SortedByCae(s[1..]);
      InsertByCaeSorted(e, s[1..]);
      ConsSorted(s[0], InsertByCae(e, s[1..]));
    }
  }

  /** Inserting adds exactly the new entry and loses none. */
  lemma {:induction false} InsertByCaePermutes(e: SimulationResult, s: seq<SimulationResult>)
    ensures multiset(InsertByCae(e, s)) == multiset(s) + multiset{e}
  {
    if s != [] && e.metrics.cae > s[0].metrics.cae {
      InsertByCaePermutes(e, s[1..]);
      assert s == [s[0]] + s[1..];
    }
  }

  /**
   * Stable sort by ascending CAE: each entry is inserted ahead of the later
   * entries with the same CAE, so ties keep their original order.
   */
  function SortByCae(s: seq<SimulationResult>): (r: seq<SimulationResult>)
    ensures |r| == |s|
  {
    if s == [] then [] else InsertByCae(s[0], SortByCae(s[1..]))
  }

  /** The sort's output is in ascending CAE order. */
  lemma {:induction false} SortByCaeSorted(s: seq<SimulationResult>)
    ensures SortedByCae(SortByCae(s))
  {
    if s != [] {
      SortByCaeSorted(s[1..]);
      InsertByCaeSorted(s[0], SortByCae(s[1..]));
    }
  }

  /** The sort's output is a permutation of its input. */
  lemma {:induction false} SortByCaePermutes(s: seq<SimulationResult>)
    ensures multiset(SortByCae(s)) == multiset(s)
  {
    if s != [] {
      SortByCaePermutes(s[1..]);
      InsertByCaePermutes(s[0], SortByCae(s[1..]));
      assert s == [s[0]] + s[1..];
    }
  }

  /** The entry the sort puts first has the least CAE of all. */
  lemma SortedHeadIsMinimum(s: seq<SimulationResult>)
    requires s != []
    ensures SortByCae(s)[0] in s
    ensures forall e :: e in s ==> SortByCae(s)[0].metrics.cae <= e.metrics.cae
  {
    var r := SortByCae(s);
    SortByCaeSorted(s);
    SortByCaePermutes(s);
    assert r[0] in multiset(r);
    forall e | e in s ensures r[0].metrics.cae <= e.metrics.cae {
      assert e in multiset(s);
      var j :| 0 <= j < |r| && r[j] == e;
      if j > 0 { assert r[0].metrics.cae <= r[j].metrics.cae; }
    }
  }

  /** Ties are broken by position: the head is the earliest entry of least CAE. */
  lemma {:induction false} SortedHeadIsEarliestMinimum(s: seq<SimulationResult>)
    requires s != []
    ensures exists k :: 0 <= k < |s| && s[k] == SortByCae(s)[0]
                        && forall j :: 0 <= j < k ==> s[j].metrics.cae > s[k].metrics.cae
  {
    var tail := s[1..];
    if tail == [] || s[0].metrics.cae <= SortByCae(tail)[0].metrics.cae {
      assert s[0] == SortByCae(s)[0];
    } else {
      SortedHeadIsEarliestMinimum(tail);
      SortedHeadIsMinimum(tail);
      var k :| 0 <= k < |tail| && tail[k] == SortByCae(tail)[0]
               && forall j :: 0 <= j < k ==> tail[j].metrics.cae > tail[k].metrics.cae;
      assert s[k + 1] == SortByCae(s)[0];
      forall j | 0 <= j < k + 1 ensures s[j].metrics.cae > s[k + 1].metrics.cae {
        if j > 0 { assert s[j] == tail[j - 1]; }
      }
    }
  }

  /** `sort(...)[0]?.id ?? null`: the id of the cheapest entry, none for an empty history. */
  function OptimalId(history: seq<SimulationResult>): (r: Option<string>)
    ensures r.None? <==> history == []
  {
    if history == [] then None else Some(SortByCae(history)[0].id)
  }

  /** The optimal id belongs to an entry of the history whose CAE no other entry undercuts. */
  lemma OptimalIdIsCheapest(history: seq<SimulationResult>)
    requires history != []
    ensures exists e :: e in history && e.id == OptimalId(history).value
                        && forall x :: x in history ==> e.metrics.cae <= x.metrics.cae
  {
    SortedHeadIsMinimum(history);
    assert SortByCae(history)[0].id == OptimalId(history).value;
  }

  /** `history.find((item) => item.id === id)`. */
  function FindById(history: seq<SimulationResult>, id: string): (r: Option<SimulationResult>)
    ensures r.Some? ==> r.value in history && r.value.id == id
    ensures r.None? <==> forall e :: e in history ==> e.id != id
    ensures history != [] && history[0].id == id ==> r == Some(history[0])
    ensures r.Some? ==> exists k :: 0 <= k < |history| && history[k] == r.value
                                    && forall j :: 0 <= j < k ==> history[j].id != id
  {
    if history == [] then None
    else if history[0].id == id then Some(history[0])
    else FindById(history[1..], id)
  }

  // ---------------------------------------------------------------------
  // Field updates: `setField(key, value)` spreads one key into the input.
  // ---------------------------------------------------------------------

  datatype FieldUpdate =
    | SetAmount(amount: real)
    | SetTerm(term: int)
    | SetRate(rate: real)
    | SetCreditType(creditType: string)
    | SetMonthlyIncome(monthlyIncome: real)
    | SetInstitution(institution: string)

  datatype Field = Amount | Term | Rate | CreditType | MonthlyIncome | Institution

  datatype FieldValue = Number(n: real) | Whole(i: int) | Text(s: string)

  function KeyOf(u: FieldUpdate): Field {
    match u
    case SetAmount(_) => Amount
    case SetTerm(_) => Term
    case SetRate(_) => Rate
    case SetCreditType(_) => CreditType
    case SetMonthlyIncome(_) => MonthlyIncome
    case SetInstitution(_) => Institution
  }

  function ValueOf(u: FieldUpdate): FieldValue {
    match u
    case SetAmount(v) => Number(v)
    case SetTerm(v) => Whole(v)
    case SetRate(v) => Number(v)
    case SetCreditType(v) => Text(v)
    case SetMonthlyIncome(v) => Number(v)
    case SetInstitution(v) => Text(v)
  }

  /** `input[key]`. */
  function Get(input: SimulationInput, key: Field): FieldValue {
    match key
    case Amount => Number(input.amount)
    case Term => Whole(input.term)
    case Rate => Number(input.rate)
    case CreditType => Text(input.creditType)
    case MonthlyIncome => Number(input.monthlyIncome)
    case Institution => Text(input.institution)
  }

  /** `{ ...input, [key]: value }`. */
  function ApplyUpdate(input: SimulationInput, u: FieldUpdate): (r: SimulationInput)
    ensures Get(r, KeyOf(u)) == ValueOf(u)
    ensures forall k :: k != KeyOf(u) ==> Get(r, k) == Get(input, k)
  {
    match u
    case SetAmount(v) => input.(amount := v)
    case SetTerm(v) => input.(term := v)
    case SetRate(v) => input.(rate := v)
    case SetCreditType(v) => input.(creditType := v)
    case SetMonthlyIncome(v) => input.(monthlyIncome := v)
    case SetInstitution(v) => input.(institution := v)
  }

  /** Setting a field to the value it already holds changes nothing. */
  lemma ApplyUpdateUnchanged(input: SimulationInput, u: FieldUpdate)
    requires Get(input, KeyOf(u)) == ValueOf(u)
    ensures ApplyUpdate(input, u) == input
  {}

  /** Of two updates to the same field, the later wins. */
  lemma ApplyUpdateOverwrites(input: SimulationInput, u: FieldUpdate, v: FieldUpdate)
    requires KeyOf(u) == KeyOf(v)
    ensures ApplyUpdate(ApplyUpdate(input, u), v) == ApplyUpdate(input, v)
  {}

  // ---------------------------------------------------------------------
  // The initial form.
  // ---------------------------------------------------------------------

  /**
   * The default form with its credit type spelled as the table spells it.
   * The shipped default spells it differently; see
   * CreditSimulatorView.DefaultCreditTypeAsWrittenHasNoOptions.
   */
  const DefaultInput: SimulationInput :=
    SimulationInput(15000000.0, 60, 12.5, CONSUMO, 2200000.0, BANCO_TRADICIONAL)

  /** The credit type as the TypeScript store spells it (mis-encoded). */
  const DefaultCreditTypeAsWrittenTs: string := "Cr\U{221A}\U{00A9}dito de consumo"
  /** The credit type as the compiled JavaScript store spells it (mis-encoded). */
  const DefaultCreditTypeAsWrittenJs: string := "Cr\U{00C3}\U{00A9}dito de consumo"

  const DefaultInputAsWritten: SimulationInput := DefaultInput.(creditType := DefaultCreditTypeAsWrittenTs)

  /** The shipped default names no credit type of the benchmark table. */
  lemma DefaultAsWrittenHasNoBenchmark()
    ensures FindBenchmark(DefaultInputAsWritten.creditType, DefaultInputAsWritten.institution).None?
    ensures FindBenchmark(DefaultCreditTypeAsWrittenJs, DefaultInputAsWritten.institution).None?
    ensures forall b :: b in ChileanRateBenchmarks ==>
              b.creditType != DefaultCreditTypeAsWrittenTs && b.creditType != DefaultCreditTypeAsWrittenJs
  {
    forall b | b in ChileanRateBenchmarks
      ensures b.creditType != DefaultCreditTypeAsWrittenTs && b.creditType != DefaultCreditTypeAsWrittenJs
    {
      assert b.creditType[2] != DefaultCreditTypeAsWrittenTs[2];
      assert b.creditType[2] != DefaultCreditTypeAsWrittenJs[2];
    }
  }

  /** The corrected default has a benchmark row. */
  lemma DefaultHasBenchmark()
    ensures FindBenchmark(DefaultInput.creditType, DefaultInput.institution)
         == Some(ChileanRateBenchmarks[0])
  {
    FindBenchmarkExact(ChileanRateBenchmarks[0]);
  }

  // ---------------------------------------------------------------------
  // The store.
  // ---------------------------------------------------------------------

  class Store {
    var input: SimulationInput
    var currentResult: Option<SimulationResult>
    var history: seq<SimulationResult>
    var optimalId: Option<string>

    /** The history is bounded and the optimal id always names its cheapest entry. */
    ghost predicate Valid()
      reads this
    {
      |history| <= HISTORY_LIMIT && optimalId == OptimalId(history)
    }

    constructor ()
      ensures Valid()
      ensures input == DefaultInput && currentResult == None
      ensures history == [] && optimalId == None
    {
      input := DefaultInput;
      currentResult := None;
      history := [];
      optimalId := None;
    }

    /** The store as shipped: the same, on the mis-decoded default credit type. */
    constructor AsShipped()
      ensures Valid()
      ensures input == DefaultInputAsWritten && currentResult == None
      ensures history == [] && optimalId == None
    {
      input := DefaultInputAsWritten;
      currentResult := None;
      history := [];
      optimalId := None;
    }

    /** `setField(key, value)`: only the named field of the input changes. */
    method SetField(u: FieldUpdate)
      requires Valid()
      modifies this
      ensures Valid()
      ensures input == ApplyUpdate(old(input), u)
      ensures currentResult == old(currentResult) && history == old(history) && optimalId == old(optimalId)
    {
      input := ApplyUpdate(input, u);
    }

    /**
     * `hydrate()`: `stored` is what `loadHistory` parsed (empty when nothing
     * usable was stored); at most HISTORY_LIMIT entries are kept.
     */
    method Hydrate(stored: seq<SimulationResult>)
      modifies this
      ensures Valid()
      ensures history == stored[..Min(HISTORY_LIMIT, |stored|)]
      ensures optimalId == OptimalId(history)
      ensures input == old(input) && currentResult == old(currentResult)
    {
      history := stored[..Min(HISTORY_LIMIT, |stored|)];
      optimalId := OptimalId(history);
    }

    /**
     * `compute()`: builds a result with a fresh id, puts it at the head of the
     * history and recomputes the optimal id, which is then always present.
     */
    method Compute(freshId: string, createdAt: string) returns (result: SimulationResult)
      requires Valid()
      modifies this
      ensures Valid()
      ensures result == BuildSimulationResult(old(input), None, freshId, createdAt)
      ensures history == UpsertHistoryEntry(old(history), result)
      ensures currentResult == Some(result)
      ensures optimalId.Some?
      ensures input == old(input)
    {
      result := BuildSimulationResult(input, None, freshId, createdAt);
      var nextHistory := UpsertHistoryEntry(history, result);
      var optimal := OptimalId(nextHistory).GetOr(result.id);
      currentResult := Some(result);
      history := nextHistory;
      optimalId := Some(optimal);
    }

    /**
     * `loadFromHistory(id)`: copies the first entry with that id back into the
     * form; an unknown id changes nothing.
     */
    method LoadFromHistory(id: string)
      requires Valid()
      modifies this
      ensures Valid()
      ensures history == old(history) && optimalId == old(optimalId)
      ensures FindById(history, id).None? ==> input == old(input) && currentResult == old(currentResult)
      ensures FindById(history, id).Some? ==>
                currentResult == FindById(history, id) && input == currentResult.value.input
    {
      var entry := FindById(history, id);
      if entry.None? {
        return;
      }
      input := entry.value.input;
      currentResult := entry;
    }
  }

  /** A computed result can be loaded back: its id finds it at the head. */
  lemma ComputedResultIsFound(history: seq<SimulationResult>, result: SimulationResult)
    ensures FindById(UpsertHistoryEntry(history, result), result.id) == Some(result)
  {}

  // ---------------------------------------------------------------------
  // `compareAgainstBenchmark`.
  // ---------------------------------------------------------------------

  datatype Comparison = Comparison(benchmark: RateBenchmark, delta: real, isBelow: bool)

  function CompareAgainstBenchmark(simulation: SimulationResult): (r: Option<Comparison>)
    ensures r.None? <==> FindBenchmark(simulation.input.creditType, simulation.input.institution).None?
    ensures r.Some? ==> r.value.benchmark in ChileanRateBenchmarks
    ensures r.Some? ==> HasKey(r.value.benchmark, simulation.input.creditType, simulation.input.institution)
    ensures r.Some? ==> r.value.benchmark.averageRate + r.value.delta == simulation.input.rate
    ensures r.Some? ==> (r.value.isBelow <==> simulation.input.rate <= r.value.benchmark.averageRate)
  {
    match FindBenchmark(simulation.input.creditType, simulation.input.institution)
    case None => None
    case Some(b) =>
      var delta := simulation.input.rate - b.averageRate;
      Some(Comparison(b, delta, delta <= 0.0))
  }
}
