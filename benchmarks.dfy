/**
 * The static table of average Chilean lending rates per (credit type,
 * institution) pair, and its first-match lookup.
 */
module Benchmarks {
  import opened Wrappers

  datatype RateBenchmark = RateBenchmark(
    creditType: string,
    institution: string,
    averageRate: real,   // percent per year
    updatedAt: string,
    source: string)

  // Credit type keys, correctly encoded.
  const CONSUMO: string := "Cr\U{00E9}dito de consumo"
  const HIPOTECARIO: string := "Cr\U{00E9}dito hipotecario"
  const CONSOLIDACION: string := "Consolidaci\U{00F3}n"
  const AUTOMOTRIZ: string := "Automotriz"
  const EDUCACION: string := "Educaci\U{00F3}n"

  // Institution names.
  const BANCO_TRADICIONAL: string := "Banco tradicional"
  const FINTECH: string := "Fintech"
  const COOPERATIVA: string := "Cooperativa"
  const FINANCIERA_AUTOMOTRIZ: string := "Financiera automotriz"
  const INSTITUCION_ESTATAL: string := "Instituci\U{00F3}n estatal"

  const ChileanRateBenchmarks: seq<RateBenchmark> := [
    RateBenchmark(CONSUMO, BANCO_TRADICIONAL, 26.4, "2024-02-29",
      "CMF - Informe mensual de cr\U{00E9}ditos de consumo"),
    RateBenchmark(CONSUMO, FINTECH, 32.5, "2024-02-29",
      "ABIF - Radiograf\U{00ED}a al cr\U{00E9}dito digital"),
    RateBenchmark(HIPOTECARIO, BANCO_TRADICIONAL, 4.35, "2024-03-31",
      "CMF - Tasas promedio hipotecarias"),
    RateBenchmark(HIPOTECARIO, COOPERATIVA, 4.95, "2024-03-31",
      "Cooperativas de Ahorro y Cr\U{00E9}dito"),
    RateBenchmark(CONSOLIDACION, BANCO_TRADICIONAL, 18.2, "2024-01-31",
      "Banco Central - Reporte de hogares endeudados"),
    RateBenchmark(AUTOMOTRIZ, BANCO_TRADICIONAL, 16.4, "2024-01-31",
      "Asociaci\U{00F3}n Nacional Automotriz de Chile"),
    RateBenchmark(AUTOMOTRIZ, FINANCIERA_AUTOMOTRIZ, 22.3, "2024-01-31",
      "Asociaci\U{00F3}n Nacional Automotriz de Chile"),
    RateBenchmark(EDUCACION, BANCO_TRADICIONAL, 14.1, "2024-02-15",
      "Mineduc - Estad\U{00ED}sticas de financiamiento"),
    RateBenchmark(EDUCACION, INSTITUCION_ESTATAL, 6.5, "2024-02-15",
      "Ingresa - Cr\U{00E9}ditos estudiantiles")
  ]

  predicate HasKey(b: RateBenchmark, creditType: string, institution: string) {
    b.creditType == creditType && b.institution == institution
  }

  /** `table.find(...)`: the first row whose key is (creditType, institution). */
  function FindIn(table: seq<RateBenchmark>, creditType: string, institution: string): (r: Option<RateBenchmark>)
    ensures r.Some? ==> r.value in table && HasKey(r.value, creditType, institution)
    ensures r.None? <==> forall b :: b in table ==> !HasKey(b, creditType, institution)
  {
    if table == [] then None
    else if HasKey(table[0], creditType, institution) then Some(table[0])
    else FindIn(table[1..], creditType, institution)
  }

  /** The row found is the first one with that key: no earlier row has it. */
  lemma {:induction false} FindInIsFirst(table: seq<RateBenchmark>, creditType: string, institution: string)
    requires FindIn(table, creditType, institution).Some?
    ensures exists i :: 0 <= i < |table| && table[i] == FindIn(table, creditType, institution).value
                        && forall j :: 0 <= j < i ==> !HasKey(table[j], creditType, institution)
  {
    if !HasKey(table[0], creditType, institution) {
      var tail := table[1..];
      FindInIsFirst(tail, creditType, institution);
      var i :| 0 <= i < |tail| && tail[i] == FindIn(tail, creditType, institution).value
               && forall j :: 0 <= j < i ==> !HasKey(tail[j], creditType, institution);
      assert table[i + 1] == tail[i];
      forall j | 0 <= j < i + 1 ensures !HasKey(table[j], creditType, institution) {
        if j > 0 { assert table[j] == tail[j - 1]; }
      }
    } else {
      assert table[0] == FindIn(table, creditType, institution).value;
    }
  }

  /** `findBenchmark`: the lookup on the fixed table. */
  function FindBenchmark(creditType: string, institution: string): (r: Option<RateBenchmark>)
    ensures r.Some? ==> r.value in ChileanRateBenchmarks
    ensures r.Some? ==> r.value.creditType == creditType && r.value.institution == institution
    ensures r.None? <==> forall b :: b in ChileanRateBenchmarks ==> !HasKey(b, creditType, institution)
  {
    FindIn(ChileanRateBenchmarks, creditType, institution)
  }

  /** The table has nine rows, one per key, each with a positive average rate. */
  lemma TableWellFormed()
    ensures |ChileanRateBenchmarks| == 9
    ensures forall i, j :: 0 <= i < j < |ChileanRateBenchmarks| ==>
              !HasKey(ChileanRateBenchmarks[j], ChileanRateBenchmarks[i].creditType, ChileanRateBenchmarks[i].institution)
    ensures forall b :: b in ChileanRateBenchmarks ==> b.averageRate > 0.0
  {}

  /** Because keys are unique, the lookup returns exactly the row with that key. */
  lemma FindBenchmarkExact(b: RateBenchmark)
    requires b in ChileanRateBenchmarks
    ensures FindBenchmark(b.creditType, b.institution) == Some(b)
  {
    TableWellFormed();
    var r := FindBenchmark(b.creditType, b.institution);
    FindInIsFirst(ChileanRateBenchmarks, b.creditType, b.institution);
    var i :| 0 <= i < |ChileanRateBenchmarks| && ChileanRateBenchmarks[i] == r.value
             && forall j :: 0 <= j < i ==> !HasKey(ChileanRateBenchmarks[j], b.creditType, b.institution);
    var k :| 0 <= k < |ChileanRateBenchmarks| && ChileanRateBenchmarks[k] == b;
    assert !(k < i);
    assert !(i < k);
  }
}
