/**
 * The Chilean RUT as the sign-up form handles it: normalisation to digits
 * and the check letter K, display formatting with thousands dots and a
 * hyphen, and the modulo-11 check digit.
 */
module Rut {
  import opened JsText

  /** A character that survives `normalizeRut`: a digit or the letter K. */
  predicate IsRutChar(c: char) {
    IsDigit(c) || c == 'K'
  }

  predicate AllRutChars(s: string) {
    forall i :: 0 <= i < |s| ==> IsRutChar(s[i])
  }

  predicate AllDigits(s: string) {
    forall i :: 0 <= i < |s| ==> IsDigit(s[i])
  }

  /** `normalizeRut`: keeps digits and `k`/`K`, with `k` upper-cased. */
  function NormalizeRut(value: string): (r: string)
    ensures AllRutChars(r)
    ensures |r| <= |value|
  {
    if value == [] then []
    else
      var rest := NormalizeRut(value[1..]);
      if IsRutChar(value[0]) then [value[0]] + rest
      else if value[0] == 'k' then ['K'] + rest
      else rest
  }

  lemma {:induction false} NormalizeAppend(a: string, b: string)
    ensures NormalizeRut(a + b) == NormalizeRut(a) + NormalizeRut(b)
  {
    if a != [] {
      assert (a + b)[1..] == a[1..] + b;
      NormalizeAppend(a[1..], b);
    } else {
      assert a + b == b;
    }
  }

  /** A string already made of digits and K is left as it is. */
  lemma {:induction false} NormalizeClean(s: string)
    requires AllRutChars(s)
    ensures NormalizeRut(s) == s
  {
    if s != [] {
      NormalizeClean(s[1..]);
    }
  }

  /** Normalising twice is normalising once. */
  lemma NormalizeIdempotent(value: string)
    ensures NormalizeRut(NormalizeRut(value)) == NormalizeRut(value)
  {
    NormalizeClean(NormalizeRut(value));
  }

  // ---------------------------------------------------------------------
  // `formatRut`
  // ---------------------------------------------------------------------

  /** The length of the run of digits that starts at position `p`. */
  function DigitRun(s: string, p: nat): (n: nat)
    requires p <= |s|
    ensures p + n <= |s|
    ensures forall i :: p <= i < p + n ==> IsDigit(s[i])
    ensures p + n < |s| ==> !IsDigit(s[p + n])
    decreases |s| - p
  {
    if p < |s| && IsDigit(s[p]) then 1 + DigitRun(s, p + 1) else 0
  }

  /**
   * `\B(?=(\d{3})+(?!\d))` matches at position `p` of a body made of digits
   * and K: `p` lies strictly between two characters (all of them word
   * characters) and exactly a positive multiple of three digits follow.
   */
  predicate DotBefore(body: string, p: nat)
    requires p <= |body|
  {
    0 < p < |body| && DigitRun(body, p) > 0 && DigitRun(body, p) % 3 == 0
  }

  /** For an all-digit body, a dot goes where a multiple of three digits remain. */
  lemma DotBeforeDigits(body: string, p: nat)
    requires AllDigits(body) && p <= |body|
    ensures DotBefore(body, p) <==> 0 < p < |body| && (|body| - p) % 3 == 0
  {
    assert DigitRun(body, p) == |body| - p;
  }

  /** The body from position `p` on, with the dots inserted. */
  function FormatFrom(body: string, p: nat): (r: string)
    requires p <= |body|
    ensures |r| >= |body| - p
    decreases |body| - p
  {
    if p == |body| then []
    else (if DotBefore(body, p) then "." else "") + [body[p]] + FormatFrom(body, p + 1)
  }

  /** The formatted body keeps exactly the body's characters once the dots are removed. */
  lemma {:induction false} FormatFromNormalizes(body: string, p: nat)
    requires AllRutChars(body) && p <= |body|
    ensures NormalizeRut(FormatFrom(body, p)) == body[p..]
    decreases |body| - p
  {
    if p < |body| {
      var dot: string := if DotBefore(body, p) then "." else "";
      FormatFromNormalizes(body, p + 1);
      NormalizeAppend(dot + [body[p]], FormatFrom(body, p + 1));
      NormalizeAppend(dot, [body[p]]);
      assert NormalizeRut(dot) == [];
      assert NormalizeRut([body[p]]) == [body[p]];
      assert body[p..] == [body[p]] + body[p + 1..];
    }
  }

  /** Formats an already normalised RUT: `body-dv`, with dots in the body. */
  function FormatClean(clean: string): (r: string)
    requires AllRutChars(clean)
    ensures clean == [] <==> r == []
    ensures clean != [] ==> |r| >= 2 && r[|r| - 1] == clean[|clean| - 1] && r[|r| - 2] == '-'
  {
    if clean == [] then []
    else FormatFrom(clean[..|clean| - 1], 0) + "-" + [clean[|clean| - 1]]
  }

  /** `formatRut`. */
  function FormatRut(value: string): (r: string)
    ensures r == [] <==> NormalizeRut(value) == []
  {
    FormatClean(NormalizeRut(value))
  }

  /** Formatting neither loses nor adds a digit or K: it only adds dots and the hyphen. */
  lemma FormatRutRoundTrip(value: string)
    ensures NormalizeRut(FormatRut(value)) == NormalizeRut(value)
  {
    var clean := NormalizeRut(value);
    if clean != [] {
      var body := clean[..|clean| - 1];
      var dv := [clean[|clean| - 1]];
      FormatFromNormalizes(body, 0);
      NormalizeAppend(FormatFrom(body, 0) + "-", dv);
      NormalizeAppend(FormatFrom(body, 0), "-");
      assert NormalizeRut("-") == [];
      assert NormalizeRut(dv) == dv;
      assert body[0..] == body;
      assert clean == body + dv;
    }
  }

  /** Re-formatting a formatted RUT changes nothing, as the input field relies on. */
  lemma FormatRutIdempotent(value: string)
    ensures FormatRut(FormatRut(value)) == FormatRut(value)
  {
    FormatRutRoundTrip(value);
  }

  // ---------------------------------------------------------------------
  // `validateRut`
  // ---------------------------------------------------------------------

  /** The multiplier of the digit `k` places from the right: 2, 3, 4, 5, 6, 7, 2, ... */
  function Weight(k: nat): int {
    2 + k % 6
  }

  function DigitValue(c: char): (v: nat)
    requires IsDigit(c)
    ensures v <= 9
  {
    c as int - '0' as int
  }

  /** The sum of each digit times its multiplier. */
  function WeightedSum(body: string): (sum: nat)
    requires AllDigits(body)
    ensures sum <= 63 * |body|
  {
    if body == [] then 0 else DigitValue(body[0]) * Weight(|body| - 1) + WeightedSum(body[1..])
  }

  /** The value a check character stands for: K is 10. */
  function CheckValue(c: char): (v: nat)
    requires IsRutChar(c)
    ensures v <= 10
    ensures v == 10 <==> c == 'K'
  {
    if c == 'K' then 10 else DigitValue(c)
  }

  /** The expected check character for a weighted sum. */
  function CheckDigit(sum: nat): (dv: char)
    ensures IsRutChar(dv)
    ensures (sum + CheckValue(dv)) % 11 == 0
  {
    var modulus := 11 - sum % 11;
    if modulus == 11 then '0'
    else if modulus == 10 then 'K'
    else ('0' as int + modulus) as char
  }

  /** Exactly one check character completes a given sum to a multiple of 11. */
  lemma CheckDigitUnique(sum: nat, c: char)
    requires IsRutChar(c)
    ensures CheckDigit(sum) == c <==> (sum + CheckValue(c)) % 11 == 0
  {
    var d := CheckDigit(sum);
    if (sum + CheckValue(c)) % 11 == 0 {
      assert (CheckValue(c) - CheckValue(d)) % 11 == 0;
      assert CheckValue(c) == CheckValue(d);
    }
  }

  /** What `validateRut` accepts: a digit body and the check character it calls for. */
  predicate IsValidRut(rut: string) {
    var clean := NormalizeRut(rut);
    |clean| >= 2
    && AllDigits(clean[..|clean| - 1])
    && CheckDigit(WeightedSum(clean[..|clean| - 1])) == clean[|clean| - 1]
  }

  /**
   * `validateRut`. A K inside the body makes `parseInt` return NaN, which
   * turns the sum and the expected check digit into "NaN"; `isNaN` tracks
   * that state.
   */
  method ValidateRut(rut: string) returns (valid: bool)
    ensures valid == IsValidRut(rut)
  {
    var clean := NormalizeRut(rut);
    if |clean| < 2 {
      return false;
    }
    var body := clean[..|clean| - 1];
    var dv := clean[|clean| - 1..];
    var sum, isNaN := SumBody(body);
    var expected: string;
    if isNaN {
      expected := "NaN";
    } else {
      expected := [CheckDigit(sum)];
    }
    valid := expected == dv;
    assert dv == [clean[|clean| - 1]];
  }

  /**
   * The loop of `validateRut`: from the rightmost digit, each digit times a
   * multiplier that cycles through 2..7; a non-digit sets `isNaN`.
   */
  method SumBody(body: string) returns (sum: int, isNaN: bool)
    ensures isNaN <==> !AllDigits(body)
    ensures !isNaN ==> sum == WeightedSum(body)
  {
    var multiplier := 2;
    sum := 0;
    isNaN := false;
    var i := |body| - 1;
    while i >= 0
      invariant -1 <= i < |body|
      invariant multiplier == Weight(|body| - 1 - i)
      invariant isNaN <==> !AllDigits(body[i + 1..])
      invariant !isNaN ==> sum == WeightedSum(body[i + 1..])
      decreases i + 1
    {
      assert body[i..][1..] == body[i + 1..];
      if IsDigit(body[i]) {
        sum := sum + DigitValue(body[i]) * multiplier;
      } else {
        isNaN := true;
      }
      multiplier := if multiplier == 7 then 2 else multiplier + 1;
      i := i - 1;
    }
    assert body[0..] == body;
  }

  /** Every digit body has exactly one valid check character. */
  lemma {:induction false} OneCheckCharacterPerBody(body: string, c: char)
    requires body != [] && AllDigits(body) && IsRutChar(c)
    ensures IsValidRut(body + [c]) <==> c == CheckDigit(WeightedSum(body))
    ensures IsValidRut(body + [CheckDigit(WeightedSum(body))])
  {
    NormalizeClean(body + [c]);
    NormalizeClean(body + [CheckDigit(WeightedSum(body))]);
    assert (body + [c])[..|body|] == body;
    assert (body + [CheckDigit(WeightedSum(body))])[..|body|] == body;
  }

  /** Whether a RUT is valid does not depend on how it is formatted. */
  lemma FormattingPreservesValidity(value: string)
    ensures IsValidRut(FormatRut(value)) == IsValidRut(value)
  {
    FormatRutRoundTrip(value);
  }

  lemma ExampleSumTail()
    ensures AllDigits("5678") && WeightedSum("5678") == 86
  {
    assert WeightedSum("8") == 16;
    assert WeightedSum("78") == 37;
    assert WeightedSum("678") == 61;
  }

  lemma ExampleSum()
    ensures AllDigits("12345678") && WeightedSum("12345678") == 138
  {
    ExampleSumTail();
    assert "12345678"[4..] == "5678";
    assert WeightedSum("45678") == 110;
    assert WeightedSum("345678") == 131;
    assert WeightedSum("2345678") == 135;
  }

  /** The hyphenated example normalises to its digits. */
  lemma HyphenatedExample(dv: char)
    requires IsDigit(dv)
    ensures NormalizeRut("12345678-" + [dv]) == "12345678" + [dv]
  {
    var body := "12345678";
    NormalizeClean(body);
    NormalizeAppend(body, "-" + [dv]);
    assert NormalizeRut("-" + [dv]) == [dv];
    assert body + ("-" + [dv]) == "12345678-" + [dv];
  }

  /** Of the hyphenated forms 12345678-d, only 12345678-5 is valid. */
  lemma ExampleCheckDigit(dv: char)
    requires IsDigit(dv)
    ensures IsValidRut("12345678-" + [dv]) <==> dv == '5'
  {
    var body := "12345678";
    ExampleSum();
    assert CheckDigit(138) == '5';
    HyphenatedExample(dv);
    NormalizeClean(body + [dv]);
    OneCheckCharacterPerBody(body, dv);
  }

  /** One position of `FormatFrom` on a digit body. */
  lemma FormatFromDigitStep(body: string, p: nat)
    requires AllDigits(body) && p < |body|
    ensures FormatFrom(body, p)
         == (if 0 < p && (|body| - p) % 3 == 0 then "." else "") + [body[p]] + FormatFrom(body, p + 1)
  {
    DotBeforeDigits(body, p);
  }

  /** The last group of three digits of an eight-digit body. */
  lemma FormattedLastGroup(body: string)
    requires AllDigits(body) && |body| == 8
    ensures FormatFrom(body, 5) == ['.', body[5], body[6], body[7]]
  {
    FormatFromDigitStep(body, 7);
    FormatFromDigitStep(body, 6);
    FormatFromDigitStep(body, 5);
  }

  /** The middle group of three digits of an eight-digit body. */
  lemma FormattedMiddleGroup(body: string)
    requires AllDigits(body) && |body| == 8
    ensures FormatFrom(body, 2) == ['.', body[2], body[3], body[4]] + FormatFrom(body, 5)
  {
    FormatFromDigitStep(body, 4);
    FormatFromDigitStep(body, 3);
    FormatFromDigitStep(body, 2);
  }

  /** The leading two digits of an eight-digit body. */
  lemma FormattedLeadingDigits(body: string)
    requires AllDigits(body) && |body| == 8
    ensures FormatFrom(body, 0) == [body[0], body[1]] + FormatFrom(body, 2)
  {
    FormatFromDigitStep(body, 1);
    FormatFromDigitStep(body, 0);
  }

  /** An eight-digit body is dotted as dd.ddd.ddd. */
  lemma FormattedEightDigits(body: string)
    requires AllDigits(body) && |body| == 8
    ensures FormatFrom(body, 0)
         == [body[0], body[1], '.', body[2], body[3], body[4], '.', body[5], body[6], body[7]]
  {
    FormattedLastGroup(body);
    FormattedMiddleGroup(body);
    FormattedLeadingDigits(body);
  }

  /** A worked example of the dots: 123456785 is shown as 12.345.678-5. */
  lemma FormattedExample(clean: string)
    requires clean == "123456785"
    ensures FormatRut(clean) == "12.345.678-5"
  {
    assert AllRutChars(clean);
    NormalizeClean(clean);
    var body := clean[..|clean| - 1];
    assert AllDigits(body);
    FormattedEightDigits(body);
  }

  /** A worked example: 12345678-5 is valid. */
  lemma WorkedExampleValid()
    ensures IsValidRut("12345678-5")
  {
    ExampleCheckDigit('5');
    assert "12345678-" + ['5'] == "12345678-5";
  }

  /** ... and 12345678-4, one off, is not. */
  lemma WorkedExampleInvalid()
    ensures !IsValidRut("12345678-4")
  {
    ExampleCheckDigit('4');
    assert "12345678-" + ['4'] == "12345678-4";
  }
}
