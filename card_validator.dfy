/** The card checks StripeService runs before it contacts the gateway
    (src/Service/StripeService.php, `validateCardData` and the private
    helpers it calls, plus `getCardBrand`): required fields, the Luhn
    mod-10 check of ISO/IEC 7812-1 Annex B, the expiry date against the
    current month, the CVC format and the brand read off the number's
    prefix. All of it is pure; the current (year, month) is a parameter. */
module Cards {
  import opened Common
  import opened PhpValues

  const InvalidNumberMessage := "The card number you entered is invalid. Please check and try again."
  const MonthRangeMessage := "The expiry month must be between 01 and 12."
  const ExpiredMessage := "Your card has expired. Please use a valid card."
  const CvcMessage := "The security code (CVC) must be 3 or 4 digits."

  // ---------------------------------------------------------------------
  // Card number: strip non-digits, 13..19 digits, Luhn mod 10

  /** `preg_replace('/\D/', '', $s)`: the decimal digits of `s`, in order. */
  function DigitsOnly(s: string): (d: string)
    ensures IsDigits(d) && |d| <= |s|
  {
    if s == [] then []
    else if IsDigit(s[0]) then [s[0]] + DigitsOnly(s[1..])
    else DigitsOnly(s[1..])
  }

  /** The term one digit adds to the Luhn sum: its value, or, when it is
      doubled, twice its value less 9 if that exceeds 9. */
  function LuhnTerm(c: char, doubled: bool): (t: int)
    requires IsDigit(c)
    ensures 0 <= t <= 9
  {
    var v := DigitValue(c);
    if doubled then (if 2 * v > 9 then 2 * v - 9 else 2 * v) else v
  }

  /** The Luhn sum of the digit string `s` when its rightmost digit is
      doubled iff `doubleLast`; from there on every second digit, going
      left, is doubled. A digit with k digits to its right is therefore
      doubled iff k is odd, exclusive-or `doubleLast`. */
  function LuhnSumFrom(s: string, doubleLast: bool): int
    requires IsDigits(s)
  {
    if s == [] then 0
    else LuhnTerm(s[0], ((|s| - 1) % 2 == 1) != doubleLast) + LuhnSumFrom(s[1..], doubleLast)
  }

  /** The Luhn sum proper: the rightmost (check) digit is not doubled. */
  function LuhnSum(s: string): int
    requires IsDigits(s)
  {
    LuhnSumFrom(s, false)
  }

  /** What `validateCardNumber` accepts. */
  predicate CardNumberValid(number: string)
  {
    var d := DigitsOnly(number);
    13 <= |d| <= 19 && LuhnSum(d) % 10 == 0
  }

  /** The body of the `validateCardNumber` loop for one digit. */
  method DigitTerm(c: char, isEven: bool) returns (digit: int)
    requires IsDigit(c)
    ensures digit == LuhnTerm(c, isEven)
  {
    digit := DigitValue(c);
    if isEven {
      digit := digit * 2;
      if digit > 9 {
        digit := digit - 9;
      }
    }
  }

  /** The loop of `validateCardNumber`, from the rightmost digit: it keeps
      the running sum and flips `isEven` after every digit. */
  method LuhnSumLoop(d: string) returns (sum: int)
    requires IsDigits(d)
    ensures sum == LuhnSum(d)
  {
    sum := 0;
    var isEven := false;
    var i := |d| - 1;
    while i >= 0
      invariant -1 <= i < |d|
      invariant sum == LuhnSum(d[i + 1..])
      invariant isEven == ((|d| - 1 - i) % 2 == 1)
    {
      var digit := DigitTerm(d[i], isEven);
      LuhnStep(d, i, isEven);
      sum := sum + digit;
      isEven := !isEven;
      i := i - 1;
    }
    assert d[0..] == d;
  }

  /** `validateCardNumber`: separators dropped, 13 to 19 digits, Luhn sum
      a multiple of 10. */
  method ValidateCardNumber(number: string) returns (ok: bool)
    ensures ok == CardNumberValid(number)
  {
    var d := DigitsOnly(number);
    if |d| < 13 || |d| > 19 {
      return false;
    }
    var sum := LuhnSumLoop(d);
    ok := sum % 10 == 0;
  }

  /** One step of the loop, from the right: the digit at `i` adds its
      term to the sum of the digits after it, and the doubling flips. */
  lemma LuhnStep(d: string, i: int, isEven: bool)
    requires IsDigits(d) && 0 <= i < |d|
    requires isEven == ((|d| - 1 - i) % 2 == 1)
    ensures LuhnSum(d[i..]) == LuhnTerm(d[i], isEven) + LuhnSum(d[i + 1..])
    ensures !isEven == ((|d| - 1 - (i - 1)) % 2 == 1)
  {
    assert d[i..][1..] == d[i + 1..];
  }

  lemma {:induction false} DigitsOnlyOfDigits(s: string)
    requires IsDigits(s)
    ensures DigitsOnly(s) == s
  {
    if s != [] {
      DigitsOnlyOfDigits(s[1..]);
      assert [s[0]] + s[1..] == s;
    }
  }

  lemma {:induction false} DigitsOnlyConcat(a: string, b: string)
    ensures DigitsOnly(a + b) == DigitsOnly(a) + DigitsOnly(b)
  {
    if a != [] {
      assert (a + b)[1..] == a[1..] + b;
      DigitsOnlyConcat(a[1..], b);
    } else {
      assert a + b == b;
    }
  }

  /** Separators are ignored: inserting a non-digit character (a space, a
      dash) anywhere in a card number does not change the verdict, and a
      number is judged exactly as its digits alone are. */
  lemma SeparatorsIgnored(a: string, sep: char, b: string)
    requires !IsDigit(sep)
    ensures CardNumberValid(a + [sep] + b) == CardNumberValid(a + b)
    ensures CardNumberValid(a + b) == CardNumberValid(DigitsOnly(a + b))
  {
    DigitsOnlyConcat(a + [sep], b);
    DigitsOnlyConcat(a, [sep]);
    DigitsOnlyConcat(a, b);
    assert DigitsOnly([sep]) == [];
    assert DigitsOnly(a) + [] == DigitsOnly(a);
    DigitsOnlyOfDigits(DigitsOnly(a + b));
  }

  /** Appending a digit shifts the doubling pattern of everything before it. */
  lemma {:induction false} LuhnSumAppend(p: string, c: char, doubleLast: bool)
    requires IsDigits(p) && IsDigit(c)
    ensures IsDigits(p + [c])
    ensures LuhnSumFrom(p + [c], doubleLast) == LuhnSumFrom(p, !doubleLast) + LuhnTerm(c, doubleLast)
  {
    var s := p + [c];
    assert IsDigits(s) by {
      forall i | 0 <= i < |s| ensures IsDigit(s[i]) {
        if i < |p| { assert s[i] == p[i]; }
      }
    }
    if p == [] {
      assert s == [c];
      assert s[1..] == [];
    } else {
      assert s[0] == p[0];
      assert s[1..] == p[1..] + [c];
      LuhnSumAppend(p[1..], c, doubleLast);
    }
  }

  /** Replacing the digit at index i changes the sum by exactly the
      difference of that position's two terms. */
  lemma {:induction false} LuhnSumUpdate(s: string, i: int, c: char, doubleLast: bool)
    requires IsDigits(s) && 0 <= i < |s| && IsDigit(c)
    ensures IsDigits(s[i := c])
    ensures var doubled := ((|s| - 1 - i) % 2 == 1) != doubleLast;
            LuhnSumFrom(s[i := c], doubleLast)
            == LuhnSumFrom(s, doubleLast) - LuhnTerm(s[i], doubled) + LuhnTerm(c, doubled)
  {
    var t := s[i := c];
    assert IsDigits(t) by {
      forall k | 0 <= k < |t| ensures IsDigit(t[k]) {
        if k != i { assert t[k] == s[k]; }
      }
    }
    if i == 0 {
      assert t[1..] == s[1..];
    } else {
      assert t[0] == s[0];
      assert t[1..] == s[1..][i - 1 := c];
      LuhnSumUpdate(s[1..], i - 1, c, doubleLast);
    }
  }

  lemma LuhnTermInjective(a: char, b: char, doubled: bool)
    requires IsDigit(a) && IsDigit(b) && a != b
    ensures LuhnTerm(a, doubled) != LuhnTerm(b, doubled)
  {
    assert DigitValue(a) != DigitValue(b);
  }

  lemma ModTenShift(sum: int, e: int)
    requires sum % 10 == 0 && -9 <= e <= 9 && e != 0
    ensures (sum + e) % 10 != 0
  {
    var q := sum / 10;
    assert sum == 10 * q;
    if e > 0 {
      assert sum + e == 10 * q + e;
      assert (sum + e) % 10 == e;
    } else {
      assert sum + e == 10 * (q - 1) + (e + 10);
      assert (sum + e) % 10 == e + 10;
    }
  }

  /** Any single-digit error in a valid card number is detected: changing
      one digit of a number that passes makes it fail. */
  lemma SingleDigitErrorDetected(s: string, i: int, c: char)
    requires IsDigits(s) && 0 <= i < |s| && IsDigit(c) && c != s[i]
    requires CardNumberValid(s)
    ensures !CardNumberValid(s[i := c])
  {
    var t := s[i := c];
    var doubled := (|s| - 1 - i) % 2 == 1;
    LuhnSumUpdate(s, i, c, false);
    LuhnTermInjective(s[i], c, doubled);
    DigitsOnlyOfDigits(s);
    DigitsOnlyOfDigits(t);
    assert LuhnSum(s) % 10 == 0;
    ModTenShift(LuhnSum(s), LuhnTerm(c, doubled) - LuhnTerm(s[i], doubled));
    assert LuhnSum(t) % 10 != 0;
  }

  /** The check digit that completes a payload (ISO/IEC 7812-1 Annex B). */
  function CheckDigit(payload: string): (c: char)
    requires IsDigits(payload)
    ensures IsDigit(c)
  {
    DigitChar((10 - LuhnSumFrom(payload, true) % 10) % 10)
  }

  /** Exactly one digit completes a payload to a number passing the Luhn
      check, and it is `CheckDigit(payload)`. */
  lemma CheckDigitIsTheOnlyCompletion(payload: string, c: char)
    requires IsDigits(payload) && IsDigit(c)
    ensures IsDigits(payload + [c])
    ensures LuhnSum(payload + [c]) % 10 == 0 <==> c == CheckDigit(payload)
  {
    LuhnSumAppend(payload, c, false);
    var sum := LuhnSumFrom(payload, true);
    assert LuhnTerm(c, false) == DigitValue(c);
    CompletesModTen(sum, DigitValue(c));
    var cd := CheckDigit(payload);
    assert DigitValue(cd) == (10 - sum % 10) % 10;
    if c != cd {
      assert DigitValue(c) != DigitValue(cd);
    }
  }

  /** The one digit that brings a sum to a multiple of ten. */
  lemma CompletesModTen(sum: int, d: int)
    requires 0 <= d <= 9
    ensures (sum + d) % 10 == 0 <==> d == (10 - sum % 10) % 10
  {
    var q, r := sum / 10, sum % 10;
    assert sum == 10 * q + r && 0 <= r < 10;
    assert sum + d == 10 * q + (r + d);
    if r + d < 10 {
      assert (sum + d) % 10 == r + d;
    } else {
      assert sum + d == 10 * (q + 1) + (r + d - 10);
      assert (sum + d) % 10 == r + d - 10;
    }
  }

  // ---------------------------------------------------------------------
  // Expiry

  /** What `date('m')` can return. */
  type Month = m: int | 1 <= m <= 12 witness 1

  /** The current (year, month), read from the clock by the source. */
  datatype YearMonth = YearMonth(year: int, month: Month)

  /** Two-digit (and smaller) years are taken to be in the 2000s. */
  function ExpiryYear(y: int): int
  {
    if y < 100 then y + 2000 else y
  }

  /** `validateExpiry`: both fields go through PHP's `(int)`; the month
      must be 1..12; the card is good through the end of its expiry month. */
  function ValidateExpiry(month: string, year: string, today: YearMonth): (r: Check)
    ensures var m := StringToInt(month);
            (m < 1 || m > 12) ==> r == Invalid(MonthRangeMessage)
    ensures r == Valid || r == Invalid(MonthRangeMessage) || r == Invalid(ExpiredMessage)
    ensures var m := StringToInt(month);
            r == Valid <==> 1 <= m <= 12
                            && ExpiryYear(StringToInt(year)) * 12 + m >= today.year * 12 + today.month
  {
    var m := StringToInt(month);
    var y := StringToInt(year);
    if m < 1 || m > 12 then Invalid(MonthRangeMessage)
    else
      var y := ExpiryYear(y);
      if y < today.year then Invalid(ExpiredMessage)
      else if y == today.year && m < today.month then Invalid(ExpiredMessage)
      else Valid
  }

  // ---------------------------------------------------------------------
  // CVC

  /** `preg_match('/^\d{3,4}$/', $cvc) === 1` as PCRE evaluates it: without
      the D modifier `$` also matches just before a final newline, so
      "123\n" is accepted. The rest of the model uses `CvcValid`. */
  predicate CvcValidAsWritten(cvc: string)
  {
    (3 <= |cvc| <= 4 && IsDigits(cvc))
    || (4 <= |cvc| <= 5 && cvc[|cvc| - 1] == '\n' && IsDigits(cvc[..|cvc| - 1]))
  }

  /** The evidently intended CVC check: exactly 3 or 4 decimal digits. */
  predicate CvcValid(cvc: string)
  {
    3 <= |cvc| <= 4 && IsDigits(cvc)
  }

  /** The two CVC checks agree on every string except one that ends in a
      newline, and "123\n" is such a string that the source accepts. */
  lemma CvcCheckDiffersOnlyOnTrailingNewline(cvc: string)
    ensures CvcValid(cvc) ==> CvcValidAsWritten(cvc)
    ensures CvcValidAsWritten(cvc) && !CvcValid(cvc) ==> |cvc| > 0 && cvc[|cvc| - 1] == '\n'
    ensures CvcValidAsWritten("123\n") && !CvcValid("123\n")
  {
    var w := "123\n";
    assert w[..3] == "123";
    assert !IsDigit(w[3]);
  }

  // ---------------------------------------------------------------------
  // Brand

  datatype Brand = Visa | Mastercard | Amex | Discover | Jcb | Unknown

  /** The brand as the payment record stores it. */
  function BrandName(b: Brand): string
  {
    match b
    case Visa => "VISA"
    case Mastercard => "MASTERCARD"
    case Amex => "AMEX"
    case Discover => "DISCOVER"
    case Jcb => "JCB"
    case Unknown => "UNKNOWN"
  }

  /** `(int)substr($d, 0, k)` for a digit string `d`. */
  function LeadingValue(d: string, k: nat): nat
    requires IsDigits(d)
  {
    DecimalValue(d[..Min(k, |d|)])
  }

  /** `getCardBrand`: the first rule that matches, in this order. */
  function CardBrand(number: string): Brand
  {
    var d := DigitsOnly(number);
    var two := LeadingValue(d, 2);
    var four := LeadingValue(d, 4);
    if d[..Min(1, |d|)] == "4" then Visa
    else if 51 <= two <= 55 then Mastercard
    else if two == 37 || two == 34 then Amex
    else if four == 6011 || (65 <= two <= 69) then Discover
    else if 3528 <= four <= 3589 then Jcb
    else Unknown
  }

  lemma DecimalValueSnoc(d: string, k: int)
    requires IsDigits(d) && 0 <= k < |d|
    ensures DecimalValue(d[..k + 1]) == DecimalValue(d[..k]) * 10 + DigitValue(d[k])
  {
    assert d[..k + 1][..k] == d[..k];
  }

  lemma LeadingValues(d: string)
    requires IsDigits(d)
    ensures |d| == 0 ==> LeadingValue(d, 2) == 0 && LeadingValue(d, 4) == 0
    ensures |d| == 1 ==> LeadingValue(d, 2) == DigitValue(d[0]) && LeadingValue(d, 4) == DigitValue(d[0])
    ensures |d| >= 2 ==> LeadingValue(d, 2) == 10 * DigitValue(d[0]) + DigitValue(d[1])
    ensures 2 <= |d| < 4 ==> LeadingValue(d, 4) < 1000
    ensures |d| >= 4 ==> LeadingValue(d, 4)
                         == 100 * LeadingValue(d, 2) + 10 * DigitValue(d[2]) + DigitValue(d[3])
  {
    if |d| == 0 {
      assert d[..0] == [];
    } else {
      assert d[..0] == [];
      DecimalValueSnoc(d, 0);
      var v1 := DecimalValue(d[..1]);
      assert v1 == DigitValue(d[0]);
      if |d| == 1 {
        assert d[..Min(2, |d|)] == d[..1] && d[..Min(4, |d|)] == d[..1];
      } else {
        DecimalValueSnoc(d, 1);
        var v2 := DecimalValue(d[..2]);
        assert v2 == 10 * DigitValue(d[0]) + DigitValue(d[1]);
        assert LeadingValue(d, 2) == v2;
        if |d| == 2 {
          assert d[..Min(4, |d|)] == d[..2];
        } else {
          DecimalValueSnoc(d, 2);
          var v3 := DecimalValue(d[..3]);
          if |d| == 3 {
            assert d[..Min(4, |d|)] == d[..3];
            assert v3 == v2 * 10 + DigitValue(d[2]);
          } else {
            DecimalValueSnoc(d, 3);
            assert LeadingValue(d, 4) == DecimalValue(d[..4]);
          }
        }
      }
    }
  }

  /** The brand rules as a classification of prefixes: each brand is
      characterised by its own prefix condition alone, because the ranges
      do not overlap on digit strings (in particular a leading 4 excludes
      every later rule, so VISA is never shadowed). */
  lemma BrandClassification(number: string)
    ensures var d := DigitsOnly(number);
            CardBrand(number) == Visa <==> |d| > 0 && d[0] == '4'
    ensures var d := DigitsOnly(number);
            CardBrand(number) == Mastercard <==> 51 <= LeadingValue(d, 2) <= 55
    ensures var d := DigitsOnly(number);
            CardBrand(number) == Amex <==> LeadingValue(d, 2) == 34 || LeadingValue(d, 2) == 37
    ensures var d := DigitsOnly(number);
            CardBrand(number) == Discover
            <==> LeadingValue(d, 4) == 6011 || 65 <= LeadingValue(d, 2) <= 69
    ensures var d := DigitsOnly(number);
            CardBrand(number) == Jcb <==> 3528 <= LeadingValue(d, 4) <= 3589
  {
    var d := DigitsOnly(number);
    LeadingValues(d);
    if |d| > 0 {
      assert d[..Min(1, |d|)] == [d[0]];
      assert (d[..Min(1, |d|)] == "4") == (d[0] == '4');
    } else {
      assert d[..Min(1, |d|)] == [];
    }
  }

  // ---------------------------------------------------------------------
  // The whole card

  /** The card fields `validateCardData` requires, in the order it checks them. */
  const RequiredCardFields: seq<string> := ["number", "exp_month", "exp_year", "cvc", "name"]

  /** How the error message names each required field. */
  function FieldLabel(field: string): string
  {
    match field
    case "number" => "card number"
    case "exp_month" => "expiry month"
    case "exp_year" => "expiry year"
    case "cvc" => "security code (CVC)"
    case "name" => "cardholder name"
    case _ => field
  }

  function MissingMessage(field: string): string
  {
    "Please enter your " + FieldLabel(field)
  }

  /** The presence test of `validateCardData`: set and not PHP-empty. */
  function FilledIn(card: Fields): string -> bool
  {
    f => Filled(card, f)
  }

  /** What `validateCardData` decides. Every card field reaches the
      validators through a `string` parameter, hence `AsText`. */
  function CardDataVerdict(card: Fields, today: YearMonth): (r: Check)
    ensures FirstFailing(RequiredCardFields, FilledIn(card)).Some?
            ==> r == Invalid(MissingMessage(FirstFailing(RequiredCardFields, FilledIn(card)).value))
    ensures r == Valid
            <==> (forall k :: 0 <= k < |RequiredCardFields| ==> Filled(card, RequiredCardFields[k]))
                 && CardNumberValid(AsText(card["number"]))
                 && ValidateExpiry(AsText(card["exp_month"]), AsText(card["exp_year"]), today) == Valid
                 && CvcValid(AsText(card["cvc"]))
    ensures (forall k :: 0 <= k < |RequiredCardFields| ==> Filled(card, RequiredCardFields[k]))
            && !CardNumberValid(AsText(card["number"]))
            ==> r == Invalid(InvalidNumberMessage)
    // then the expiry, and the CVC last
    ensures (forall k :: 0 <= k < |RequiredCardFields| ==> Filled(card, RequiredCardFields[k]))
            && CardNumberValid(AsText(card["number"]))
            ==> var expiry := ValidateExpiry(AsText(card["exp_month"]), AsText(card["exp_year"]), today);
                && (expiry.Invalid? ==> r == expiry)
                && (expiry == Valid && !CvcValid(AsText(card["cvc"])) ==> r == Invalid(CvcMessage))
  {
    var missing := FirstFailing(RequiredCardFields, FilledIn(card));
    if missing.Some? then Invalid(MissingMessage(missing.value))
    else if !CardNumberValid(AsText(card["number"])) then Invalid(InvalidNumberMessage)
    else
      var expiry := ValidateExpiry(AsText(card["exp_month"]), AsText(card["exp_year"]), today);
      if expiry.Invalid? then expiry
      else if !CvcValid(AsText(card["cvc"])) then Invalid(CvcMessage)
      else Valid
  }

  /** The early-return loop of `validateCardData` over the required
      fields: the first one missing or empty, if any. */
  method FirstMissingField(card: Fields) returns (missing: Option<string>)
    ensures missing == FirstFailing(RequiredCardFields, FilledIn(card))
  {
    var i := 0;
    while i < |RequiredCardFields|
      invariant 0 <= i <= |RequiredCardFields|
      invariant forall k :: 0 <= k < i ==> FilledIn(card)(RequiredCardFields[k])
    {
      var field := RequiredCardFields[i];
      if !(field in card && !IsEmpty(card[field])) {
        FirstFailingAt(RequiredCardFields, FilledIn(card), i);
        return Some(field);
      }
      i := i + 1;
    }
    return None;
  }

  /** `validateCardData`: the required fields, then the number, expiry and
      CVC checks in that order. */
  method ValidateCardData(card: Fields, today: YearMonth) returns (r: Check)
    ensures r == CardDataVerdict(card, today)
  {
    var missing := FirstMissingField(card);
    if missing.Some? {
      return Invalid(MissingMessage(missing.value));
    }
    assert FilledIn(card)(RequiredCardFields[0]) && FilledIn(card)(RequiredCardFields[1]);
    assert FilledIn(card)(RequiredCardFields[2]) && FilledIn(card)(RequiredCardFields[3]);
    assert RequiredCardFields[0] == "number" && RequiredCardFields[1] == "exp_month";
    assert RequiredCardFields[2] == "exp_year" && RequiredCardFields[3] == "cvc";
    var numberOk := ValidateCardNumber(AsText(card["number"]));
    if !numberOk {
      return Invalid(InvalidNumberMessage);
    }
    var expiry := ValidateExpiry(AsText(card["exp_month"]), AsText(card["exp_year"]), today);
    if expiry.Invalid? {
      return expiry;
    }
    if !CvcValid(AsText(card["cvc"])) {
      return Invalid(CvcMessage);
    }
    return Valid;
  }
}
