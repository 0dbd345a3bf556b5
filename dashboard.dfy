/**
 * The classifiers of the signed-in dashboard: the credit-score gauge's
 * colour, the score card's label, the default score and the pre-approved
 * limit derived from the client's monthly income.
 */
module Dashboard {
  import opened Wrappers

  /** The gauge's scale. */
  const MAX_SCORE: real := 1000.0

  /** `(score / maxScore) * 100`. */
  function Percentage(score: real, maxScore: real): (p: real)
    requires maxScore > 0.0
    ensures p * maxScore == score * 100.0
    ensures 0.0 <= score <= maxScore ==> 0.0 <= p <= 100.0
  {
    var p := (score / maxScore) * 100.0;
    assert (score / maxScore) * maxScore == score;
    assert 0.0 <= score <= maxScore ==> 0.0 <= score / maxScore <= 1.0;
    p
  }

  datatype Band = Green | Blue | Yellow | Red

  /** The primary and secondary colours the gauge draws for a band. */
  function BandColors(b: Band): (string, string) {
    match b
    case Green => ("#10b981", "#d1fae5")
    case Blue => ("#3b82f6", "#dbeafe")
    case Yellow => ("#f59e0b", "#fef3c7")
    case Red => ("#ef4444", "#fee2e2")
  }

  /** Each band draws in its own primary and its own secondary colour. */
  lemma BandColorsDistinct(a: Band, b: Band)
    ensures BandColors(a).0 == BandColors(b).0 <==> a == b
    ensures BandColors(a).1 == BandColors(b).1 <==> a == b
  {
    if a != b {
      assert BandColors(a).0[1] != BandColors(b).0[1];
      assert BandColors(a).1[1] != BandColors(b).1[1] || BandColors(a).1[3] != BandColors(b).1[3];
    }
  }

  /** `getScoreColor`: the first threshold the percentage reaches, from the top. */
  function ScoreBand(percentage: real): (b: Band)
    ensures b == Green <==> percentage >= 80.0
    ensures b == Blue <==> 60.0 <= percentage < 80.0
    ensures b == Yellow <==> 40.0 <= percentage < 60.0
    ensures b == Red <==> percentage < 40.0
  {
    if percentage >= 80.0 then Green
    else if percentage >= 60.0 then Blue
    else if percentage >= 40.0 then Yellow
    else Red
  }

  /** The bands in order, from red to green. */
  function BandRank(b: Band): nat {
    match b
    case Red => 0
    case Yellow => 1
    case Blue => 2
    case Green => 3
  }

  /** A higher percentage never falls into a lower band. */
  lemma ScoreBandMonotone(p: real, q: real)
    requires p <= q
    ensures BandRank(ScoreBand(p)) <= BandRank(ScoreBand(q))
  {}

  datatype ScoreLabel = ScoreLabel(text: string, color: string)

  /** `getScoreLabel`: the first threshold the score reaches, from the top. */
  function LabelOf(score: real): (l: ScoreLabel)
    ensures l.text == "Excelente" <==> score >= 800.0
    ensures l.text == "Muy Bueno" <==> 650.0 <= score < 800.0
    ensures l.text == "Bueno" <==> 500.0 <= score < 650.0
    ensures l.text == "Regular" <==> score < 500.0
    ensures l.text == "Excelente" <==> l.color == "text-emerald-600"
    ensures l.text == "Muy Bueno" <==> l.color == "text-blue-600"
    ensures l.text == "Bueno" <==> l.color == "text-yellow-600"
    ensures l.text == "Regular" <==> l.color == "text-red-600"
  {
    if score >= 800.0 then ScoreLabel("Excelente", "text-emerald-600")
    else if score >= 650.0 then ScoreLabel("Muy Bueno", "text-blue-600")
    else if score >= 500.0 then ScoreLabel("Bueno", "text-yellow-600")
    else ScoreLabel("Regular", "text-red-600")
  }

  /**
   * On the 1000-point gauge the green band and the "Excelente" label start
   * at the same score, but the lower bands do not line up: 600 is blue yet
   * "Bueno", 450 is yellow yet "Regular".
   */
  lemma GaugeAndLabelAgreeOnlyAtTop(score: real)
    ensures ScoreBand(Percentage(score, MAX_SCORE)) == Green <==> LabelOf(score).text == "Excelente"
    ensures ScoreBand(Percentage(600.0, MAX_SCORE)) == Blue && LabelOf(600.0).text == "Bueno"
    ensures ScoreBand(Percentage(450.0, MAX_SCORE)) == Yellow && LabelOf(450.0).text == "Regular"
  {
    assert Percentage(score, MAX_SCORE) == score / 10.0;
    assert Percentage(600.0, MAX_SCORE) == 60.0;
    assert Percentage(450.0, MAX_SCORE) == 45.0;
  }

  /** `user?.cliente?.score_credito || 950`: a missing or zero score shows as 950. */
  function DisplayedScore(scoreCredito: Option<real>): (s: real)
    ensures scoreCredito.None? || scoreCredito.value == 0.0 ==> s == 950.0
    ensures scoreCredito.Some? && scoreCredito.value != 0.0 ==> s == scoreCredito.value
  {
    if scoreCredito.Some? && scoreCredito.value != 0.0 then scoreCredito.value else 950.0
  }

  /** A client without a score is shown the top label and the green gauge. */
  lemma DefaultScoreIsExcellent()
    ensures LabelOf(DisplayedScore(None)).text == "Excelente"
    ensures ScoreBand(Percentage(DisplayedScore(None), MAX_SCORE)) == Green
  {
    assert Percentage(950.0, MAX_SCORE) == 95.0;
  }

  /** `user?.cliente?.ingresos_mensuales || 0`. */
  function DisplayedIncome(ingresos: Option<real>): (i: real)
    ensures ingresos.None? ==> i == 0.0
    ensures ingresos.Some? ==> i == ingresos.value
  {
    if ingresos.Some? && ingresos.value != 0.0 then ingresos.value else 0.0
  }

  const LIMIT_CAP: real := 10000000.0

  /** `Math.min(ingresos * 3, 10000000)`: three months of income, capped at ten million. */
  function PreApprovedLimit(ingresos: real): (cupo: real)
    ensures cupo <= LIMIT_CAP
    ensures cupo <= ingresos * 3.0
    ensures cupo == ingresos * 3.0 || cupo == LIMIT_CAP
  {
    if ingresos * 3.0 <= LIMIT_CAP then ingresos * 3.0 else LIMIT_CAP
  }

  /** More income never lowers the limit. */
  lemma PreApprovedLimitMonotone(a: real, b: real)
    requires a <= b
    ensures PreApprovedLimit(a) <= PreApprovedLimit(b)
  {}

  /** The cap is reached exactly from 10,000,000 / 3 of income on. */
  lemma PreApprovedLimitCapped(ingresos: real)
    ensures PreApprovedLimit(ingresos) == LIMIT_CAP <==> ingresos * 3.0 >= LIMIT_CAP
    ensures ingresos >= 0.0 ==> PreApprovedLimit(ingresos) >= 0.0
  {}

  /** A client with no income on record is pre-approved for nothing. */
  lemma NoIncomeNoLimit()
    ensures PreApprovedLimit(DisplayedIncome(None)) == 0.0
  {}
}
