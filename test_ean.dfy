/**
 * test-ean.js: the script that checks `isValidEan13` against five sample
 * codes, stopping at the first sample whose verdict differs from the expected
 * one (`assert.strictEqual` throws there).
 */
module TestEan {
  import opened Wrappers
  import opened JsStrings
  import opened JsValues
  import opened Ean13

  /** The `samples` table: a code and whether it is expected to be valid. */
  const Samples: seq<(string, bool)> := [
    ("4006381333931", true),
    ("1234567890123", false),
    ("9783161484100", true),
    ("9780571363611", false),
    ("9780571366361", true)
  ]

  /**
   * The `for (const [ean, expected] of samples)` loop: the index of the first
   * sample whose verdict is not the expected one, or `None` when the script
   * reaches "All EAN checks passed".
   */
  method RunSamples(samples: seq<(string, bool)>) returns (failure: Option<nat>)
    ensures failure.None? <==> forall i :: 0 <= i < |samples| ==> IsValidEan13(Str(samples[i].0)) == samples[i].1
    ensures failure.Some? ==>
              && failure.value < |samples|
              && IsValidEan13(Str(samples[failure.value].0)) != samples[failure.value].1
              && forall i :: 0 <= i < failure.value ==> IsValidEan13(Str(samples[i].0)) == samples[i].1
  {
    var i := 0;
    while i < |samples|
      invariant 0 <= i <= |samples|
      invariant forall j :: 0 <= j < i ==> IsValidEan13(Str(samples[j].0)) == samples[j].1
    {
      var (ean, expected) := samples[i];
      if IsValidEan13(Str(ean)) != expected {
        return Some(i);
      }
      i := i + 1;
    }
    return None;
  }

  lemma WeightedSumStep(ds: seq<nat>, n: nat)
    requires n < |ds|
    ensures WeightedSum(ds[..n + 1]) == WeightedSum(ds[..n]) + ds[n] * Weight(n)
  {
    assert ds[..n + 1][..n] == ds[..n];
  }

  /** One more digit of the sum, with its weight evaluated. */
  lemma SumStep(ds: seq<nat>, n: nat, acc: nat)
    requires n < |ds| && WeightedSum(ds[..n]) == acc
    ensures WeightedSum(ds[..n + 1]) == acc + (if n % 2 == 0 then ds[n] else 3 * ds[n])
  {
    WeightedSumStep(ds, n);
  }

  /** The twelve-term sum written out, one weighted digit at a time. */
  lemma SumExplicit(ds: seq<nat>)
    requires |ds| >= 12
    ensures WeightedSum(ds[..12]) == ds[0] + 3 * ds[1] + ds[2] + 3 * ds[3] + ds[4] + 3 * ds[5]
                                     + ds[6] + 3 * ds[7] + ds[8] + 3 * ds[9] + ds[10] + 3 * ds[11]
  {
    assert ds[..0] == [];
    var acc := 0;
    SumStep(ds, 0, acc); acc := acc + ds[0];
    SumStep(ds, 1, acc); acc := acc + 3 * ds[1];
    SumStep(ds, 2, acc); acc := acc + ds[2];
    SumStep(ds, 3, acc); acc := acc + 3 * ds[3];
    SumStep(ds, 4, acc); acc := acc + ds[4];
    SumStep(ds, 5, acc); acc := acc + 3 * ds[5];
    SumStep(ds, 6, acc); acc := acc + ds[6];
    SumStep(ds, 7, acc); acc := acc + 3 * ds[7];
    SumStep(ds, 8, acc); acc := acc + ds[8];
    SumStep(ds, 9, acc); acc := acc + 3 * ds[9];
    SumStep(ds, 10, acc); acc := acc + ds[10];
    SumStep(ds, 11, acc); acc := acc + 3 * ds[11];
  }

  /** The check digit with the sum written out, for evaluating concrete codes. */
  lemma CheckDigitExplicit(ds: seq<nat>)
    requires |ds| >= 12
    ensures CheckDigit(ds) == (10 - (ds[0] + 3 * ds[1] + ds[2] + 3 * ds[3] + ds[4] + 3 * ds[5]
                                     + ds[6] + 3 * ds[7] + ds[8] + 3 * ds[9] + ds[10] + 3 * ds[11]) % 10) % 10
  {
    SumExplicit(ds);
  }

  /** The verdict on a concrete 13-digit code, from its digits. */
  lemma Verdict(t: string, ds: seq<nat>)
    requires IsThirteenDigits(t) && Digits(t) == ds
    ensures IsValidEan13(Str(t)) == ((10 - (ds[0] + 3 * ds[1] + ds[2] + 3 * ds[3] + ds[4] + 3 * ds[5]
                                     + ds[6] + 3 * ds[7] + ds[8] + 3 * ds[9] + ds[10] + 3 * ds[11]) % 10) % 10 == ds[12])
  {
    ValidOfDigits(t);
    CheckDigitExplicit(Digits(t));
  }

  lemma Sample0() ensures IsValidEan13(Str("4006381333931")) {
    assert IsThirteenDigits("4006381333931");
    Verdict("4006381333931", [4, 0, 0, 6, 3, 8, 1, 3, 3, 3, 9, 3, 1]);
  }
  lemma Sample1() ensures !IsValidEan13(Str("1234567890123")) {
    assert IsThirteenDigits("1234567890123");
    Verdict("1234567890123", [1, 2, 3, 4, 5, 6, 7, 8, 9, 0, 1, 2, 3]);
  }
  lemma Sample2() ensures IsValidEan13(Str("9783161484100")) {
    assert IsThirteenDigits("9783161484100");
    Verdict("9783161484100", [9, 7, 8, 3, 1, 6, 1, 4, 8, 4, 1, 0, 0]);
  }
  lemma Sample3() ensures !IsValidEan13(Str("9780571363611")) {
    assert IsThirteenDigits("9780571363611");
    Verdict("9780571363611", [9, 7, 8, 0, 5, 7, 1, 3, 6, 3, 6, 1, 1]);
  }
  lemma Sample4() ensures IsValidEan13(Str("9780571366361")) {
    assert IsThirteenDigits("9780571366361");
    Verdict("9780571366361", [9, 7, 8, 0, 5, 7, 1, 3, 6, 6, 3, 6, 1]);
  }

  /** Every sample of test-ean.js gets the expected verdict. */
  lemma AllSamplesAgree()
    ensures forall i :: 0 <= i < |Samples| ==> IsValidEan13(Str(Samples[i].0)) == Samples[i].1
  {
    forall i | 0 <= i < |Samples|
      ensures IsValidEan13(Str(Samples[i].0)) == Samples[i].1
    {
      if i == 0 { Sample0(); }
      else if i == 1 { Sample1(); }
      else if i == 2 { Sample2(); }
      else if i == 3 { Sample3(); }
      else { Sample4(); }
    }
  }

  /** The script runs to the end: no sample stops it. */
  method TestEanScript() returns (failure: Option<nat>)
    ensures failure == None
  {
    AllSamplesAgree();
    failure := RunSamples(Samples);
  }

  /** 9780571363611 is rejected because its check digit should be 2, not 1. */
  lemma Sample3CheckDigit()
    ensures CheckDigit(Digits("9780571363611")) == 2
  {
    CheckDigitExplicit(Digits("9780571363611"));
  }

  /** The sample table of test-ean.ts, which swaps the verdicts of the last two codes. */
  const TsSamples: seq<(string, bool)> := [
    ("4006381333931", true),
    ("1234567890123", false),
    ("9783161484100", true),
    ("9780571363611", true),
    ("9780571366361", false)
  ]

  /** test-ean.ts as written stops at its fourth sample: its expectation contradicts the check-digit rule. */
  method TsScriptStopsAtFourthSample() returns (failure: Option<nat>)
    ensures failure == Some(3)
    ensures IsValidEan13(Str(TsSamples[4].0)) != TsSamples[4].1
  {
    Sample0(); Sample1(); Sample2(); Sample3(); Sample4();
    assert forall i :: 0 <= i < 3 ==> TsSamples[i] == Samples[i];
    AllSamplesAgree();
    assert IsValidEan13(Str(TsSamples[3].0)) != TsSamples[3].1;
    failure := RunSamples(TsSamples);
    assert failure.Some? && failure.value >= 3;
  }
}
