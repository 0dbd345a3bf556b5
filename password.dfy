/**
 * The sign-up password rules and the strength meter that counts how many of
 * them a password meets.
 */
module Password {
  import opened JsText

  /** `[A-ZÁÉÍÓÚÑ]`: an ASCII capital or one of the accented Spanish capitals. */
  predicate IsUppercase(c: char) {
    ('A' <= c <= 'Z') || c == '\U{00C1}' || c == '\U{00C9}' || c == '\U{00CD}'
    || c == '\U{00D3}' || c == '\U{00DA}' || c == '\U{00D1}'
  }

  /** `[^\w\s]`: neither a word character nor white space. */
  predicate IsSymbol(c: char) {
    !IsWordChar(c) && !IsWhitespace(c)
  }

  datatype Rule = MinLength | Uppercase | Number | Symbol

  /** The rules in the order the meter lists them. */
  const PasswordRules: seq<Rule> := [MinLength, Uppercase, Number, Symbol]

  const MIN_PASSWORD_LENGTH: nat := 10

  function RuleLabel(rule: Rule): string {
    match rule
    case MinLength => "M\U{00ED}nimo 10 caracteres"
    case Uppercase => "Incluye may\U{00FA}scula"
    case Number => "Incluye n\U{00FA}mero"
    case Symbol => "Incluye s\U{00ED}mbolo"
  }

  /** `rule.test(value)`. */
  predicate Passes(rule: Rule, value: string) {
    match rule
    case MinLength => |value| >= MIN_PASSWORD_LENGTH
    case Uppercase => exists i :: 0 <= i < |value| && IsUppercase(value[i])
    case Number => exists i :: 0 <= i < |value| && IsDigit(value[i])
    case Symbol => exists i :: 0 <= i < |value| && IsSymbol(value[i])
  }

  /** `rules.filter((rule) => rule.test(value)).length`. */
  function CountPassed(rules: seq<Rule>, value: string): (n: nat)
    ensures n <= |rules|
    ensures n == |rules| <==> forall r :: r in rules ==> Passes(r, value)
    ensures n == 0 <==> forall r :: r in rules ==> !Passes(r, value)
  {
    if rules == [] then 0
    else
      var rest := CountPassed(rules[1..], value);
      assert forall r :: r in rules <==> r == rules[0] || r in rules[1..];
      (if Passes(rules[0], value) then 1 else 0) + rest
  }

  /** With no rule listed twice, the count is the number of distinct rules met. */
  lemma {:induction false} CountPassedIsSetSize(rules: seq<Rule>, value: string)
    requires forall i, j :: 0 <= i < j < |rules| ==> rules[i] != rules[j]
    ensures CountPassed(rules, value) == |set r | r in rules && Passes(r, value)|
  {
    if rules != [] {
      var tail := rules[1..];
      CountPassedIsSetSize(tail, value);
      var rest := set r | r in tail && Passes(r, value);
      var all := set r | r in rules && Passes(r, value);
      assert rules[0] !in tail by {
        forall k | 0 <= k < |tail| ensures tail[k] != rules[0] {
          assert tail[k] == rules[k + 1];
        }
      }
      assert forall r :: r in rules <==> r == rules[0] || r in tail;
      if Passes(rules[0], value) {
        assert all == rest + {rules[0]};
      } else {
        assert all == rest;
      }
    }
  }

  lemma EveryRuleListed()
    ensures forall r: Rule :: r in PasswordRules
  {
    forall r: Rule ensures r in PasswordRules {
      if r.MinLength? { assert PasswordRules[0] == r; }
      else if r.Uppercase? { assert PasswordRules[1] == r; }
      else if r.Number? { assert PasswordRules[2] == r; }
      else { assert PasswordRules[3] == r; }
    }
  }

  /** The meter's score: how many of the four rules the password meets. */
  function Score(password: string): (score: nat)
    ensures score <= 4
    ensures score == 4 <==> forall r :: Passes(r, password)
    ensures score == 0 <==> forall r :: !Passes(r, password)
    ensures score == |set r | r in PasswordRules && Passes(r, password)|
  {
    EveryRuleListed();
    CountPassedIsSetSize(PasswordRules, password);
    CountPassed(PasswordRules, password)
  }

  datatype Strength = Strength(caption: string, tone: string)

  /** The label and colour shown for each score. */
  function StrengthOf(score: nat): (s: Strength)
    requires score <= 4
    ensures s.caption == "Define una clave" <==> score == 0
    ensures s.caption == "Blindada" <==> score == 4
    ensures s.tone == "text-emerald-500" <==> score >= 3
    ensures s.tone == "text-slate-400" <==> score == 0
  {
    match score
    case 0 => Strength("Define una clave", "text-slate-400")
    case 1 => Strength("D\U{00E9}bil", "text-rose-500")
    case 2 => Strength("Intermedia", "text-amber-500")
    case 3 => Strength("Firme", "text-emerald-500")
    case _ => Strength("Blindada", "text-emerald-500")
  }

  /** Each score has its own label. */
  lemma StrengthLabelsDistinct(a: nat, b: nat)
    requires a <= 4 && b <= 4
    ensures StrengthOf(a).caption == StrengthOf(b).caption <==> a == b
  {
    if a != b {
      assert StrengthOf(a).caption[0] != StrengthOf(b).caption[0]
          || |StrengthOf(a).caption| != |StrengthOf(b).caption|;
    }
  }

  /**
   * The sign-up form rejects a password exactly when the meter is short of
   * "Blindada": `length < 10 || some rule fails` is `score < 4`.
   */
  lemma SignupRejectsIffNotBlindada(password: string)
    ensures (|password| < MIN_PASSWORD_LENGTH || exists r :: r in PasswordRules && !Passes(r, password))
            <==> StrengthOf(Score(password)).caption != "Blindada"
  {
    var score := Score(password);
    StrengthLabelsDistinct(score, 4);
    if score < 4 {
      var r :| !Passes(r, password);
      assert r in PasswordRules;
    }
  }

  /** The empty password meets no rule; a long mixed password meets all four. */
  lemma ScoreExamples()
    ensures Score("") == 0
    ensures Score("Abcdefghi1!") == 4
  {
    var p := "Abcdefghi1!";
    assert IsUppercase(p[0]) && IsDigit(p[9]) && IsSymbol(p[10]);
    assert forall r :: Passes(r, p);
  }
}
