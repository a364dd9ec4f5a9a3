/**
 * `isValidEan13`, the EAN-13 / ISBN-13 check-digit test used by the Gardners
 * sales agents. The function exists as three copies, identical up to type
 * annotations and layout (gardnersSalesAgent.ts, salesAgent.ts and test-ean.js), so it is
 * defined once here. Its argument is typed `string` but arrives from parsed
 * tool-call arguments, so any JavaScript value can reach it.
 */
module Ean13 {
  import opened JsStrings
  import opened JsValues

  /** `/^[0-9]{13}$/.test(t)` */
  predicate IsThirteenDigits(t: string) {
    |t| == 13 && forall i :: 0 <= i < 13 ==> IsDigit(t[i])
  }

  /** `t.split('').map(Number)` on a digit string */
  function Digits(t: string): (ds: seq<nat>)
    requires forall i :: 0 <= i < |t| ==> IsDigit(t[i])
    ensures |ds| == |t|
    ensures forall i :: 0 <= i < |t| ==> ds[i] == DigitValue(t[i]) && ds[i] < 10
  {
    seq(|t|, i requires 0 <= i < |t| => DigitValue(t[i]))
  }

  /** The weight `i % 2 === 0 ? 1 : 3` given to the digit at index `i` */
  function Weight(i: nat): nat {
    if i % 2 == 0 then 1 else 3
  }

  /** `ds.reduce((acc, d, i) => acc + d * Weight(i), 0)` */
  function WeightedSum(ds: seq<nat>): nat {
    if ds == [] then 0 else WeightedSum(ds[..|ds| - 1]) + ds[|ds| - 1] * Weight(|ds| - 1)
  }

  /** `(10 - (sum % 10)) % 10` over the first twelve digits */
  function CheckDigit(ds: seq<nat>): (c: nat)
    requires |ds| >= 12
    ensures c < 10
  {
    (10 - WeightedSum(ds[..12]) % 10) % 10
  }

  /** `isValidEan13(ean)` */
  function IsValidEan13(ean: Value): (r: bool)
    ensures r ==> ean.Str? && IsThirteenDigits(Trim(ean.s))
    ensures r ==> DigitValue(Trim(ean.s)[12]) == CheckDigit(Digits(Trim(ean.s)))
  {
    if !ean.Str? then false
    else
      var t := Trim(ean.s);
      if !IsThirteenDigits(t) then false
      else
        var ds := Digits(t);
        CheckDigit(ds) == ds[12]
  }

  // ---------------------------------------------------------------------------
  // The GS1 formulation (GS1 General Specifications, section 7.9): counting
  // positions from the right, the check digit has weight 1 and the digits to
  // its left have weights 3, 1, 3, ...; a code is valid when the weighted sum
  // of all its digits is a multiple of 10.

  function Gs1Weight(positionFromRight: nat): nat {
    if positionFromRight % 2 == 0 then 3 else 1
  }

  function Gs1Sum(ds: seq<nat>): nat {
    if ds == [] then 0 else ds[0] * Gs1Weight(|ds|) + Gs1Sum(ds[1..])
  }

  predicate Gs1Valid(t: string) {
    IsThirteenDigits(t) && Gs1Sum(Digits(t)) % 10 == 0
  }

  lemma {:induction false} PrefixSumMeetsGs1Suffix(ds: seq<nat>, n: nat)
    requires |ds| == 13 && n <= 13
    ensures WeightedSum(ds[..n]) + Gs1Sum(ds[n..]) == Gs1Sum(ds)
  {
    if n == 0 {
      assert ds[0..] == ds;
    } else {
      PrefixSumMeetsGs1Suffix(ds, n - 1);
      assert ds[..n][..n - 1] == ds[..n - 1];
      var rest := ds[n - 1..];
      assert rest[1..] == ds[n..];
      assert |rest| == 13 - (n - 1);
      assert Gs1Weight(|rest|) == Weight(n - 1);
    }
  }

  lemma Gs1SumIsWeightedSum(ds: seq<nat>)
    requires |ds| == 13
    ensures Gs1Sum(ds) == WeightedSum(ds[..12]) + ds[12]
  {
    PrefixSumMeetsGs1Suffix(ds, 13);
    assert ds[13..] == [];
    assert ds[..13][..12] == ds[..12];
  }

  /**
   * The source's check-digit comparison is the GS1 rule: a value is a valid
   * EAN-13 exactly when it is a string whose trimmed text is 13 ASCII digits
   * whose GS1 weighted sum is a multiple of 10.
   */
  lemma ValidIffGs1(ean: Value)
    ensures IsValidEan13(ean) <==> ean.Str? && Gs1Valid(Trim(ean.s))
  {
    if ean.Str? && IsThirteenDigits(Trim(ean.s)) {
      var ds := Digits(Trim(ean.s));
      Gs1SumIsWeightedSum(ds);
    }
  }

  lemma {:induction false} TrimOfDigits(t: string)
    requires forall i :: 0 <= i < |t| ==> IsDigit(t[i])
    ensures Trim(t) == t
  {
    if t != [] {
      assert !IsJsSpace(t[0]);
      assert TrimStart(t) == t;
      assert !IsJsSpace(t[|t| - 1]);
    }
  }

  /** On a text that already is 13 digits the test is the check-digit comparison alone. */
  lemma ValidOfDigits(t: string)
    requires IsThirteenDigits(t)
    ensures IsValidEan13(Str(t)) == (CheckDigit(Digits(t)) == DigitValue(t[12]))
  {
    TrimOfDigits(t);
    assert Trim(Str(t).s) == t;
    var ds := Digits(t);
    assert ds[12] == DigitValue(t[12]);
  }

  /**
   * The check digit lies in 0..9, so every 12-digit prefix has exactly one
   * valid completion: the digit that `CheckDigit` computes.
   */
  lemma UniqueCompletion(prefix: string, c: char)
    requires |prefix| == 12 && forall i :: 0 <= i < 12 ==> IsDigit(prefix[i])
    requires IsDigit(c)
    ensures IsValidEan13(Str(prefix + [c])) <==> DigitValue(c) == CheckDigit(Digits(prefix) + [0])
  {
    var t := prefix + [c];
    assert IsThirteenDigits(t);
    ValidOfDigits(t);
    var ds := Digits(t);
    var ref := Digits(prefix) + [0];
    assert ds[..12] == ref[..12];
  }

  lemma {:induction false} WeightedSumAfterUpdate(ds: seq<nat>, k: nat, v: nat)
    requires k < |ds|
    ensures WeightedSum(ds[k := v]) == WeightedSum(ds) + (v - ds[k]) * Weight(k)
  {
    var n := |ds|;
    if k == n - 1 {
      assert ds[k := v][..n - 1] == ds[..n - 1];
      assert Weight(k) == 1 || Weight(k) == 3;
    } else {
      assert ds[k := v][..n - 1] == ds[..n - 1][k := v];
      WeightedSumAfterUpdate(ds[..n - 1], k, v);
    }
  }

  lemma ShiftChangesResidue(s: int, delta: int, w: nat)
    requires w == 1 || w == 3
    requires -9 <= delta <= 9 && delta != 0
    ensures (s + delta * w) % 10 != s % 10
  {
    if w == 1 {
      assert delta * w == delta;
    } else {
      assert delta * w == 3 * delta;
    }
  }

  /** Different residues of the weighted sum give different check digits. */
  lemma ResidueDeterminesCheckDigit(a: int, b: int)
    requires a % 10 != b % 10
    ensures (10 - a % 10) % 10 != (10 - b % 10) % 10
  {
  }

  /**
   * Changing any one digit of a valid code to a different digit makes it
   * invalid: the check digit detects every single-digit substitution error.
   */
  lemma SingleDigitErrorDetected(t: string, k: nat, c: char)
    requires IsValidEan13(Str(t)) && IsThirteenDigits(t)
    requires k < 13 && IsDigit(c) && c != t[k]
    ensures !IsValidEan13(Str(t[k := c]))
  {
    var u := t[k := c];
    assert IsThirteenDigits(u);
    ValidOfDigits(t);
    ValidOfDigits(u);
    var ds := Digits(t);
    var es := Digits(u);
    assert es == ds[k := DigitValue(c)];
    assert IsValidEan13(Str(u)) == (CheckDigit(es) == es[12]);
    assert CheckDigit(ds) == ds[12];
    if k == 12 {
      assert es[..12] == ds[..12];
      assert es[12] != ds[12];
    } else {
      assert es[..12] == ds[..12][k := DigitValue(c)];
      assert es[12] == ds[12];
      var before := WeightedSum(ds[..12]);
      var after := WeightedSum(es[..12]);
      var delta := DigitValue(c) - ds[k];
      WeightedSumAfterUpdate(ds[..12], k, DigitValue(c));
      assert after == before + delta * Weight(k);
      ShiftChangesResidue(before, delta, Weight(k));
      ResidueDeterminesCheckDigit(after, before);
      assert CheckDigit(es) != CheckDigit(ds);
    }
  }

  /** Leading and trailing white space never changes the verdict. */
  lemma PaddingIgnored(p: string, s: string, q: string)
    requires AllSpace(p) && AllSpace(q)
    ensures IsValidEan13(Str(p + s + q)) == IsValidEan13(Str(s))
  {
    TrimPadding(p, s, q);
  }
}
