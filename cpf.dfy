/**
 * `validateCPF` of script.js: the check-digit rule of the Brazilian taxpayer
 * number (CPF). The input is stripped of everything but digits; it must then
 * be exactly eleven digits, not all the same, and its last two digits must be
 * the two modulo-11 check digits of the digits before them.
 */
module Cpf {

  predicate IsDigit(ch: char) {
    '0' <= ch <= '9'
  }

  /** `cpf.replace(/[^\d]+/g, '')`: the digits of `s`, in order. */
  function DigitsOnly(s: string): (r: string)
    ensures |r| <= |s|
    ensures forall i :: 0 <= i < |r| ==> IsDigit(r[i])
  {
    if |s| == 0 then ""
    else (if IsDigit(s[0]) then [s[0]] else "") + DigitsOnly(s[1..])
  }

  /** `+el` on a one-digit string. */
  function DigitValue(ch: char): int {
    ch as int - '0' as int
  }

  /** `cpf.split('').map(el => +el)` */
  function Digits(s: string): (ds: seq<int>)
    ensures |ds| == |s|
    ensures forall i :: 0 <= i < |s| ==> ds[i] == DigitValue(s[i])
  {
    seq(|s|, i requires 0 <= i < |s| => DigitValue(s[i]))
  }

  /**
   * `ds.reduce((soma, el, index) => soma + el * (count - index), 0)`, folded
   * from the left as `reduce` does: the sum of `ds[i] * (count - i)`.
   */
  function WeightedSum(ds: seq<int>, count: int): int {
    if |ds| == 0 then 0
    else WeightedSum(ds[..|ds| - 1], count) + ds[|ds| - 1] * (count - (|ds| - 1))
  }

  /**
   * `rest(count)` for an 11-digit number: `slice(0, count - 12)` keeps the
   * first `count - 1` digits. All terms are non-negative, so JavaScript's `%`
   * and Dafny's agree here.
   */
  function Rest(ds: seq<int>, count: int): int
    requires |ds| == 11 && 10 <= count <= 11
  {
    (WeightedSum(ds[..count - 1], count) * 10) % 11 % 10
  }

  /** `/(\d)\1{10}/` on an eleven-digit string: one digit repeated eleven times. */
  predicate AllSame(s: string) {
    forall i :: 0 <= i < |s| ==> s[i] == s[0]
  }

  /** Both check digits of an eleven-digit number are right. */
  predicate ChecksumHolds(ds: seq<int>)
    requires |ds| == 11
  {
    Rest(ds, 10) == ds[9] && Rest(ds, 11) == ds[10]
  }

  /** `validateCPF(cpf)` */
  function ValidateCpf(cpf: string): (ok: bool)
    ensures ok ==> |DigitsOnly(cpf)| == 11
    ensures ok ==> !AllSame(DigitsOnly(cpf))
    ensures ok ==> forall i :: 0 <= i < 11 ==> 0 <= Digits(DigitsOnly(cpf))[i] <= 9
  {
    var d := DigitsOnly(cpf);
    if |d| != 11 || AllSame(d) then false
    else ChecksumHolds(Digits(d))
  }

  // ---------------------------------------------------------------------------
  // The textbook rule, as an independent reference

  /** The sum of `ds[i] * (|ds| + 1 - i)`, accumulated from the front. */
  function TextbookSum(ds: seq<int>): int {
    if |ds| == 0 then 0 else ds[0] * (|ds| + 1) + TextbookSum(ds[1..])
  }

  /**
   * The check digit of `ds` as the rule is usually stated: eleven minus the
   * remainder of the weighted sum by eleven, or zero when that is ten or more.
   */
  function CheckDigit(ds: seq<int>): int {
    var r := 11 - TextbookSum(ds) % 11;
    if r >= 10 then 0 else r
  }

  /** Taking the first term out of the left fold. */
  lemma {:induction false} WeightedSumFirst(ds: seq<int>, count: int)
    requires |ds| >= 1
    ensures WeightedSum(ds, count) == ds[0] * count + WeightedSum(ds[1..], count - 1)
    decreases |ds|
  {
    var k := |ds|;
    if k == 1 {
      assert ds[..0] == [] && ds[1..] == [];
    } else {
      var init := ds[..k - 1];
      WeightedSumFirst(init, count);
      assert init[1..] == ds[1..][..k - 2];
      assert ds[1..][k - 2] == ds[k - 1];
    }
  }

  /** The fold of `rest` with `count = |ds| + 1` is the textbook weighted sum. */
  lemma {:induction false} WeightedSumIsTextbookSum(ds: seq<int>)
    ensures WeightedSum(ds, |ds| + 1) == TextbookSum(ds)
    decreases |ds|
  {
    if |ds| > 0 {
      WeightedSumFirst(ds, |ds| + 1);
      WeightedSumIsTextbookSum(ds[1..]);
    }
  }

  /** `(10 * s) % 11 % 10` is the textbook check digit of a sum `s`. */
  lemma TimesTenRule(s: int)
    ensures (s * 10) % 11 % 10 == (if 11 - s % 11 >= 10 then 0 else 11 - s % 11)
  {
    var q := s % 11;
    var k := s / 11;
    assert s == 11 * k + q;
    assert s * 10 == 11 * (10 * k) + 10 * q;
    assert (s * 10) % 11 == (10 * q) % 11;
    assert 0 <= q < 11;
    if q == 0 {
    } else {
      assert 10 * q == 11 * (q - 1) + (11 - q);
      assert (10 * q) % 11 == 11 - q;
    }
  }

  /** `rest(count)` computes the textbook check digit of the first `count - 1` digits. */
  lemma RestIsCheckDigit(ds: seq<int>, count: int)
    requires |ds| == 11 && 10 <= count <= 11
    ensures Rest(ds, count) == CheckDigit(ds[..count - 1])
  {
    WeightedSumIsTextbookSum(ds[..count - 1]);
    TimesTenRule(TextbookSum(ds[..count - 1]));
  }

  /**
   * `validateCPF` accepts exactly the inputs whose digits number eleven, are
   * not all the same, and end in the two textbook check digits.
   */
  lemma ValidateCpfIsCheckDigitRule(cpf: string)
    ensures ValidateCpf(cpf) <==>
      var d := DigitsOnly(cpf);
      |d| == 11 && !AllSame(d) &&
      Digits(d)[9] == CheckDigit(Digits(d)[..9]) &&
      Digits(d)[10] == CheckDigit(Digits(d)[..10])
  {
    var d := DigitsOnly(cpf);
    if |d| == 11 {
      RestIsCheckDigit(Digits(d), 10);
      RestIsCheckDigit(Digits(d), 11);
    }
  }

  // ---------------------------------------------------------------------------
  // Punctuation is ignored

  /** Stripping distributes over concatenation. */
  lemma {:induction false} DigitsOnlyAppend(a: string, b: string)
    ensures DigitsOnly(a + b) == DigitsOnly(a) + DigitsOnly(b)
    decreases |a|
  {
    if |a| == 0 {
      assert a + b == b;
    } else {
      assert (a + b)[1..] == a[1..] + b;
      DigitsOnlyAppend(a[1..], b);
    }
  }

  /** A single non-digit strips to nothing. */
  lemma DigitsOnlyNonDigit(ch: char)
    requires !IsDigit(ch)
    ensures DigitsOnly([ch]) == ""
  {
    assert [ch][1..] == "";
  }

  /** Stripping twice is stripping once. */
  lemma {:induction false} DigitsOnlyIdempotent(s: string)
    ensures DigitsOnly(DigitsOnly(s)) == DigitsOnly(s)
    decreases |s|
  {
    if |s| > 0 {
      var head := if IsDigit(s[0]) then [s[0]] else "";
      DigitsOnlyAppend(head, DigitsOnly(s[1..]));
      DigitsOnlyIdempotent(s[1..]);
      if IsDigit(s[0]) {
        assert DigitsOnly(head) == head by {
          assert head[1..] == "";
        }
      }
    }
  }

  /** A formatted number validates as its bare digits do. */
  lemma ValidateCpfIgnoresFormatting(cpf: string)
    ensures ValidateCpf(cpf) == ValidateCpf(DigitsOnly(cpf))
  {
    DigitsOnlyIdempotent(cpf);
  }

  /** Inserting a non-digit anywhere does not change the verdict. */
  lemma ValidateCpfIgnoresNonDigit(a: string, ch: char, b: string)
    requires !IsDigit(ch)
    ensures ValidateCpf(a + [ch] + b) == ValidateCpf(a + b)
  {
    DigitsOnlyAppend(a + [ch], b);
    DigitsOnlyAppend(a, [ch]);
    DigitsOnlyAppend(a, b);
    DigitsOnlyNonDigit(ch);
    assert DigitsOnly(a + [ch] + b) == DigitsOnly(a + b);
  }

  // ---------------------------------------------------------------------------
  // Examples

  /** The punctuated and the bare form of a number get the same verdict. */
  lemma ExamplePunctuationIgnored()
    ensures ValidateCpf("123.456.789-09") == ValidateCpf("12345678909")
  {
    var a, b, c := "123", "456", "789";
    ValidateCpfIgnoresNonDigit(a + b + c, '-', "09");
    ValidateCpfIgnoresNonDigit(a + b, '.', c + ['-'] + "09");
    ValidateCpfIgnoresNonDigit(a, '.', b + ['.'] + c + ['-'] + "09");
    assert a + ['.'] + (b + ['.'] + c + ['-'] + "09") == "123.456.789-09";
    assert a + (b + ['.'] + c + ['-'] + "09") == a + b + ['.'] + (c + ['-'] + "09");
    assert a + b + (c + ['-'] + "09") == a + b + c + ['-'] + "09";
    assert a + b + c + "09" == "12345678909";
  }

  /** A well-known valid number: check digits 0 (sum 210) and 9 (sum 255). */
  lemma ExampleAccepted()
    ensures ValidateCpf("12345678909")
  {
    var s := "12345678909";
    assert forall i :: 0 <= i < |s| ==> IsDigit(s[i]);
    assert Digits(s) == [1, 2, 3, 4, 5, 6, 7, 8, 9, 0, 9];
    ExampleChecksum(Digits(s));
    assert s[1] != s[0];
    BareDigitsAccepted(s);
  }

  /** Eleven bare digits, not all equal, with both check digits right, are accepted. */
  lemma BareDigitsAccepted(s: string)
    requires |s| == 11 && forall i :: 0 <= i < |s| ==> IsDigit(s[i])
    requires !AllSame(s) && ChecksumHolds(Digits(s))
    ensures ValidateCpf(s)
  {
    DigitsOnlyDigits(s);
  }

  /** The weighted sums of 123456789 and 1234567890 are 210 and 255. */
  lemma ExampleChecksum(ds: seq<int>)
    requires ds == [1, 2, 3, 4, 5, 6, 7, 8, 9, 0, 9]
    ensures ChecksumHolds(ds)
  {
    RestIsCheckDigit(ds, 10);
    RestIsCheckDigit(ds, 11);
    assert ds[..9] == [1, 2, 3, 4, 5, 6, 7, 8, 9];
    assert ds[..10] == [1, 2, 3, 4, 5, 6, 7, 8, 9, 0];
    assert TextbookSum([1, 2, 3, 4, 5, 6, 7, 8, 9]) == 210;
    assert TextbookSum([1, 2, 3, 4, 5, 6, 7, 8, 9, 0]) == 255;
  }

  /** A string of digits strips to itself. */
  lemma {:induction false} DigitsOnlyDigits(s: string)
    requires forall i :: 0 <= i < |s| ==> IsDigit(s[i])
    ensures DigitsOnly(s) == s
    decreases |s|
  {
    if |s| > 0 {
      DigitsOnlyDigits(s[1..]);
      assert [s[0]] + s[1..] == s;
    }
  }

  /** With every digit equal to `v`, the weights 2 .. |ds| + 1 add up to |ds| * (|ds| + 3) / 2. */
  lemma {:induction false} TextbookSumConstant(ds: seq<int>, v: int)
    requires forall i :: 0 <= i < |ds| ==> ds[i] == v
    ensures 2 * TextbookSum(ds) == v * (|ds| * (|ds| + 3))
    decreases |ds|
  {
    if |ds| > 0 {
      var n := |ds|;
      TextbookSumConstant(ds[1..], v);
      assert 2 * TextbookSum(ds[1..]) == v * ((n - 1) * (n + 2));
      assert (n - 1) * (n + 2) + 2 * (n + 1) == n * (n + 3);
      assert v * ((n - 1) * (n + 2)) + 2 * (v * (n + 1)) == v * (n * (n + 3));
    }
  }

  /**
   * Eleven copies of one digit satisfy both check digits, so the
   * repeated-digit test is what rejects them.
   */
  lemma RepeatedDigitPassesChecksumButIsRejected(s: string)
    requires |s| == 11 && IsDigit(s[0]) && AllSame(s)
    ensures ChecksumHolds(Digits(s))
    ensures !ValidateCpf(s)
  {
    var v := DigitValue(s[0]);
    var ds := Digits(s);
    assert 0 <= v <= 9;
    DigitsOnlyDigits(s);
    RestIsCheckDigit(ds, 10);
    RestIsCheckDigit(ds, 11);
    TextbookSumConstant(ds[..9], v);
    TextbookSumConstant(ds[..10], v);
    assert (54 * v) % 11 == (10 * v) % 11 by {
      assert 54 * v == 11 * (4 * v) + 10 * v;
    }
    assert (65 * v) % 11 == (10 * v) % 11 by {
      assert 65 * v == 11 * (5 * v) + 10 * v;
    }
    assert (10 * v) % 11 == (if v == 0 then 0 else 11 - v) by {
      if v > 0 {
        assert 10 * v == 11 * (v - 1) + (11 - v);
      }
    }
  }
}
