/** The backend's utility functions: micros to currency units, click-through
    rate and cost per click printed with two decimals, and the cleaning and
    validation of Google Ads customer identifiers.

    Numbers are exact: a JavaScript number is a `real` here, and `toFixed(2)`
    rounds the exact value to hundredths, halves away from zero. JavaScript
    rounds the nearest binary double instead, so the two can differ on ties. */
module Helpers {
  import opened Wrappers
  import opened Text

  // ---------------------------------------------------------------------------
  // micros

  /** `microsToDecimal`: a missing value counts as zero. */
  function MicrosToDecimal(micros: Option<int>): (r: real)
    ensures r * 1000000.0 == micros.GetOr(0) as real
    ensures micros.GetOr(0) == 0 ==> r == 0.0
    ensures micros.GetOr(0) >= 0 ==> r >= 0.0
  {
    micros.GetOr(0) as real / 1000000.0
  }

  // ---------------------------------------------------------------------------
  // toFixed(2)

  function Abs(x: real): real {
    if x < 0.0 then -x else x
  }

  /** The number of hundredths `toFixed(2)` prints for a non-negative value. */
  function RoundedHundredths(x: real): (h: nat)
    requires x >= 0.0
    ensures (h as real) - 0.5 <= x * 100.0 < (h as real) + 0.5
  {
    (x * 100.0 + 0.5).Floor
  }

  /** Two-decimal text of a number of hundredths: `<units>.<d><d>`. */
  function FormatHundredths(h: nat): string {
    var cents := h % 100;
    NatToString(h / 100) + "." + [DigitChar(cents / 10), DigitChar(cents % 10)]
  }

  /** `x.toFixed(2)`: a minus sign for negative values (also when the rounded
      magnitude is zero, as JavaScript prints `-0.00`), then the magnitude. */
  function ToFixed2(x: real): string {
    (if x < 0.0 then "-" else "") + FormatHundredths(RoundedHundredths(Abs(x)))
  }

  /** Reading a two-decimal text back as a signed number of hundredths. */
  function ParseFixed2(s: string): Option<int> {
    var negative := s != [] && s[0] == '-';
    var t := if negative then s[1..] else s;
    if |t| >= 4 && t[|t| - 3] == '.' && AllDigits(t[..|t| - 3]) && IsDigit(t[|t| - 2]) && IsDigit(t[|t| - 1]) then
      var v := 100 * DecimalValue(t[..|t| - 3]) + 10 * DigitValue(t[|t| - 2]) + DigitValue(t[|t| - 1]);
      Some(if negative then -v else v)
    else None
  }

  lemma FormatHundredthsValue(h: nat)
    ensures var t := FormatHundredths(h);
      |t| >= 4 && t[|t| - 3] == '.' && t[..|t| - 3] == NatToString(h / 100)
      && ParseFixed2(t) == Some(h)
  {
    var u := NatToString(h / 100);
    var cents := h % 100;
    NatToStringValue(h / 100);
    ParseFixed2Digits(u, cents / 10, cents % 10);
    assert 100 * (h / 100) + 10 * (cents / 10) + cents % 10 == h;
  }

  /** Reading back units, a point and two digits. */
  lemma ParseFixed2Digits(u: string, d1: nat, d0: nat)
    requires u != [] && AllDigits(u) && d1 < 10 && d0 < 10
    ensures var t := u + "." + [DigitChar(d1), DigitChar(d0)];
      |t| >= 4 && t[|t| - 3] == '.' && t[..|t| - 3] == u
      && ParseFixed2(t) == Some(100 * DecimalValue(u) + 10 * d1 + d0)
  {
    var t := u + "." + [DigitChar(d1), DigitChar(d0)];
    assert t[..|t| - 3] == u;
    assert t[0] == u[0] && IsDigit(u[0]);
    assert t[|t| - 2] == DigitChar(d1) && t[|t| - 1] == DigitChar(d0);
  }

  /** The hundredths `toFixed(2)` shows, with the sign of the value. */
  function SignedHundredths(x: real): int {
    if x < 0.0 then -(RoundedHundredths(-x) as int) else RoundedHundredths(x)
  }

  /** What `toFixed(2)` prints means: reading it back gives the integer number
      of hundredths nearest to the exact value (halves rounded away from zero). */
  lemma ToFixed2Meaning(x: real)
    ensures ParseFixed2(ToFixed2(x)) == Some(SignedHundredths(x))
    ensures var h := SignedHundredths(x);
      (h as real) - 0.5 <= x * 100.0 <= (h as real) + 0.5
  {
    var h := RoundedHundredths(Abs(x));
    FormatHundredthsValue(h);
    var t := FormatHundredths(h);
    if x < 0.0 {
      assert ToFixed2(x) == "-" + t;
      NegatedFixed2(t, h);
    } else {
      assert ToFixed2(x) == t;
      assert t[0] == NatToString(h / 100)[0];
    }
  }

  /** A minus sign in front of a two-decimal text negates what it reads. */
  lemma NegatedFixed2(t: string, h: nat)
    requires |t| >= 4 && t[|t| - 3] == '.' && t[..|t| - 3] == NatToString(h / 100)
    requires ParseFixed2(t) == Some(h)
    ensures ParseFixed2("-" + t) == Some(-(h as int))
  {
    assert t[0] == NatToString(h / 100)[0];
    assert ("-" + t)[0] == '-' && ("-" + t)[1..] == t;
  }

  // ---------------------------------------------------------------------------
  // CTR and CPC

  /** `calculateCTR(clicks, impressions)`. */
  function CalculateCTR(clicks: int, impressions: Option<int>): (r: string)
    ensures impressions.GetOr(0) == 0 ==> r == "0.00"
  {
    var i := impressions.GetOr(0);
    if i == 0 then "0.00" else ToFixed2(clicks as real / i as real * 100.0)
  }

  /** With impressions, the CTR text is the percentage clicks / impressions
      rounded to hundredths. */
  lemma CalculateCTRMeaning(clicks: int, impressions: int)
    requires impressions != 0
    ensures var x := clicks as real / impressions as real * 100.0;
      ParseFixed2(CalculateCTR(clicks, Some(impressions))) == Some(SignedHundredths(x))
  {
    var x := clicks as real / impressions as real * 100.0;
    assert CalculateCTR(clicks, Some(impressions)) == ToFixed2(x);
    ToFixed2Meaning(x);
  }

  lemma NatToString100()
    ensures NatToString(100) == "100"
  {
    assert NatToString(10) == "10";
  }

  /** A CTR whose exact percentage is within half a hundredth of `h`
      hundredths prints as `h` hundredths. */
  lemma CalculateCTRIs(clicks: nat, impressions: int, h: nat)
    requires impressions > 0
    requires var x := clicks as real / impressions as real * 100.0;
      (h as real) - 0.5 <= x * 100.0 < (h as real) + 0.5
    ensures CalculateCTR(clicks, Some(impressions)) == FormatHundredths(h)
  {
    var x := clicks as real / impressions as real * 100.0;
    assert x >= 0.0;
    assert CalculateCTR(clicks, Some(impressions)) == ToFixed2(x);
    assert RoundedHundredths(x) == h;
  }

  /** Every impression clicked gives "100.00". */
  lemma CalculateCTRAllClicked(n: int)
    requires n > 0
    ensures CalculateCTR(n, Some(n)) == "100.00"
  {
    var r := n as real;
    assert r / r == 1.0;
    CalculateCTRIs(n, n, 10000);
    NatToString100();
    assert FormatHundredths(10000) == NatToString(100) + "." + [DigitChar(0), DigitChar(0)];
  }

  /** No clicks gives "0.00", whatever the impressions. */
  lemma CalculateCTRNoClicks(impressions: Option<int>)
    ensures CalculateCTR(0, impressions) == "0.00"
  {
    var i := impressions.GetOr(0);
    if i != 0 {
      assert 0 as real / i as real * 100.0 == 0.0;
      assert RoundedHundredths(0.0) == 0;
    }
  }

  /** `calculateCPC(cost, clicks)`. */
  function CalculateCPC(cost: real, clicks: Option<int>): (r: string)
    ensures clicks.GetOr(0) == 0 ==> r == "0.00"
  {
    var c := clicks.GetOr(0);
    if c == 0 then "0.00" else ToFixed2(cost / c as real)
  }

  /** With clicks, the CPC text is cost / clicks rounded to hundredths. */
  lemma CalculateCPCMeaning(cost: real, clicks: int)
    requires clicks != 0
    ensures ParseFixed2(CalculateCPC(cost, Some(clicks))) == Some(SignedHundredths(cost / clicks as real))
  {
    ToFixed2Meaning(cost / clicks as real);
  }

  // ---------------------------------------------------------------------------
  // customer ids

  /** The characters `/[-\s]/g` matches. */
  const Separators: set<char> := {'-'} + JsWhitespace

  /** `formatCustomerId`: the id with every `-` and white-space character removed. */
  function FormatCustomerId(customerId: string): (r: string)
    ensures forall i :: 0 <= i < |r| ==> r[i] !in Separators
  {
    RemoveChars(customerId, Separators)
  }

  /** `validateCustomerId`: a missing or empty id is invalid; otherwise the id
      is cleaned like `formatCustomerId` and must be exactly ten ASCII digits. */
  function ValidateCustomerId(customerId: Option<string>): bool {
    if customerId.None? || customerId.value == "" then false
    else
      var cleaned := RemoveChars(customerId.value, Separators);
      |cleaned| == 10 && AllDigits(cleaned)
  }

  lemma ValidateMissingOrEmpty()
    ensures !ValidateCustomerId(None) && !ValidateCustomerId(Some(""))
  {
  }

  /** For a non-empty id, validity is "the formatted id is ten digits". */
  lemma ValidateIsFormattedTenDigits(x: string)
    requires x != ""
    ensures ValidateCustomerId(Some(x)) <==> |FormatCustomerId(x)| == 10 && AllDigits(FormatCustomerId(x))
  {
  }

  /** The number of characters of `s` that are not separators. */
  function KeptCount(s: string): nat {
    if s == [] then 0 else (if s[0] in Separators then 0 else 1) + KeptCount(s[1..])
  }

  lemma {:induction false} FormatCustomerIdKeeps(s: string)
    ensures |FormatCustomerId(s)| == KeptCount(s)
    ensures forall i :: 0 <= i < |s| && s[i] !in Separators ==> s[i] in FormatCustomerId(s)
  {
    if s != [] {
      FormatCustomerIdKeeps(s[1..]);
      forall i | 1 <= i < |s| && s[i] !in Separators ensures s[i] in FormatCustomerId(s) {
        assert s[1..][i - 1] == s[i];
      }
    }
  }

  /** Validity without reference to the cleaning: an id is valid exactly when it
      is non-empty, ten of its characters are not separators, and each of those
      is a digit. */
  lemma ValidateCustomerIdMeaning(x: string)
    ensures ValidateCustomerId(Some(x)) <==>
      x != "" && KeptCount(x) == 10 && forall i :: 0 <= i < |x| && x[i] !in Separators ==> IsDigit(x[i])
  {
    FormatCustomerIdKeeps(x);
    if ValidateCustomerId(Some(x)) {
      ValidKeptAreDigits(x);
    }
    if x != "" && KeptCount(x) == 10 && forall i :: 0 <= i < |x| && x[i] !in Separators ==> IsDigit(x[i]) {
      KeptDigitsFormatDigits(x);
    }
  }

  lemma ValidKeptAreDigits(x: string)
    requires AllDigits(FormatCustomerId(x))
    ensures forall i :: 0 <= i < |x| && x[i] !in Separators ==> IsDigit(x[i])
  {
    var r := FormatCustomerId(x);
    FormatCustomerIdKeeps(x);
    forall i | 0 <= i < |x| && x[i] !in Separators ensures IsDigit(x[i]) {
      assert x[i] in r;
      var j :| 0 <= j < |r| && r[j] == x[i];
    }
  }

  lemma KeptDigitsFormatDigits(x: string)
    requires forall i :: 0 <= i < |x| && x[i] !in Separators ==> IsDigit(x[i])
    ensures AllDigits(FormatCustomerId(x))
  {
    var r := FormatCustomerId(x);
    forall j | 0 <= j < |r| ensures IsDigit(r[j]) {
      assert r[j] in r;
      assert r[j] in x;
      var i :| 0 <= i < |x| && x[i] == r[j];
    }
  }

  /** Dashes between groups of digits are dropped: `123-456-7890` is valid. */
  lemma ValidateDashedExample()
    ensures FormatCustomerId("123-456-7890") == "1234567890"
    ensures ValidateCustomerId(Some("123-456-7890"))
  {
    assert "123-456-7890" == "123" + "-" + "456" + "-" + "7890";
    assert AllDigits("123") && AllDigits("456") && AllDigits("7890");
    DashedValid("123", "456", "7890");
    assert "123" + "456" + "7890" == "1234567890";
  }

  /** Ten digits in three dashed groups are a valid id. */
  lemma DashedValid(a: string, b: string, c: string)
    requires AllDigits(a) && AllDigits(b) && AllDigits(c) && |a| + |b| + |c| == 10
    ensures FormatCustomerId(a + "-" + b + "-" + c) == a + b + c
    ensures ValidateCustomerId(Some(a + "-" + b + "-" + c))
  {
    DashedGroups(a, b, c);
    var d := a + b + c;
    forall i | 0 <= i < |d| ensures IsDigit(d[i]) {
      if i < |a| {
        assert d[i] == a[i];
      } else if i < |a| + |b| {
        assert d[i] == b[i - |a|];
      } else {
        assert d[i] == c[i - |a| - |b|];
      }
    }
  }

  lemma DashedGroups(a: string, b: string, c: string)
    requires AllDigits(a) && AllDigits(b) && AllDigits(c)
    ensures FormatCustomerId(a + "-" + b + "-" + c) == a + b + c
  {
    NoSeparators(a);
    NoSeparators(b);
    NoSeparators(c);
    DashBetween(a, b);
    DashBetween(a + "-" + b, c);
  }

  /** A dash between two strings is dropped. */
  lemma DashBetween(x: string, y: string)
    ensures FormatCustomerId(x + "-" + y) == FormatCustomerId(x) + FormatCustomerId(y)
  {
    assert x + "-" + y == x + ("-" + y);
    FormatCustomerIdOrder(x, "-" + y, '-');
    FormatCustomerIdOrder("-", y, '-');
  }

  lemma ValidateTooLongExample()
    ensures !ValidateCustomerId(Some("12345678901"))
  {
    NoSeparators("12345678901");
  }

  lemma ValidateBlankExample()
    ensures !ValidateCustomerId(Some("   "))
  {
    RemoveCharsAll("   ", Separators);
  }

  lemma NoSeparators(s: string)
    requires AllDigits(s)
    ensures FormatCustomerId(s) == s
  {
    RemoveCharsNone(s, Separators);
  }

  /** Formatting keeps every other character, in order: it distributes over
      concatenation and keeps a single non-separator character. */
  lemma FormatCustomerIdOrder(a: string, b: string, c: char)
    ensures FormatCustomerId(a + b) == FormatCustomerId(a) + FormatCustomerId(b)
    ensures FormatCustomerId([c]) == if c in Separators then "" else [c]
  {
    RemoveCharsAppend(a, b, Separators);
    RemoveCharsSingle(c, Separators);
  }

  lemma FormatCustomerIdIdempotent(s: string)
    ensures FormatCustomerId(FormatCustomerId(s)) == FormatCustomerId(s)
  {
    RemoveCharsIdempotent(s, Separators);
  }
}
