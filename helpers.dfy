/** The backend's small helpers: Indian phone-number normalisation and
    validation, and the two date calculations. Dates are day numbers. */
module Helpers {
  import opened Common

  /** `calculate_next_period_date`: the last period date plus the cycle
      length, or nothing without a last date. */
  function NextPeriodDate(lastPeriodDate: Option<int>, cycleLength: int): (r: Option<int>)
    ensures r.None? <==> lastPeriodDate.None?
    ensures r.Some? ==> r.value - lastPeriodDate.value == cycleLength
  {
    match lastPeriodDate
    case None => None
    case Some(d) => Some(d + cycleLength)
  }

  /** The default cycle length. */
  const DefaultCycleLength := 28

  /** `calculate_gestation_weeks`: whole weeks since the date, rounded down
      (also for a date in the future, which gives a negative count). */
  function GestationWeeks(lastAncDate: Option<int>, today: int): (r: Option<int>)
    ensures r.None? <==> lastAncDate.None?
    ensures r.Some? ==> 7 * r.value <= today - lastAncDate.value < 7 * r.value + 7
  {
    match lastAncDate
    case None => None
    case Some(d) => Some((today - d) / 7)
  }

  /** `format_phone_number`, branch for branch. The third branch tests the
      digit string for a '+' prefix, which it can never have. */
  function FormatPhoneNumber(phone: string): (r: string)
    ensures var digits := Digits(phone);
      && (|digits| == 10 ==> r == "+91" + digits)
      && (|digits| == 12 && StartsWith(digits, "91") ==> r == "+" + digits)
  {
    var digits := Digits(phone);
    if |digits| == 10 then "+91" + digits
    else if StartsWith(digits, "91") && |digits| == 12 then "+" + digits
    else if StartsWith(digits, "+91") then digits
    else phone
  }

  /** The `startswith('+91')` branch is dead: a digit string never starts
      with '+'. */
  lemma PlusBranchUnreachable(phone: string)
    ensures !StartsWith(Digits(phone), "+91")
  {
    var digits := Digits(phone);
    if |digits| > 0 {
      assert IsDigit(digits[0]);
    }
  }

  /** Any other number comes back exactly as it was given. */
  lemma FormatOtherwiseUnchanged(phone: string)
    requires |Digits(phone)| != 10 && !(|Digits(phone)| == 12 && StartsWith(Digits(phone), "91"))
    ensures FormatPhoneNumber(phone) == phone
  {
    PlusBranchUnreachable(phone);
  }

  /** `validate_phone_number`: ten digits, or twelve starting with 91,
      whatever else surrounds them; that is, ten national digits with or
      without the country code. */
  predicate ValidatePhoneNumber(phone: string): (r: bool)
    ensures r <==> exists national: string ::
      |national| == 10 && (Digits(phone) == national || Digits(phone) == "91" + national)
  {
    var digits := Digits(phone);
    assert |digits| == 12 && StartsWith(digits, "91") ==> digits == "91" + digits[2..];
    |digits| == 10 || (|digits| == 12 && StartsWith(digits, "91"))
  }

  /** A valid number formats to "+91" and ten digits; anything else is
      returned as it came. */
  lemma ValidFormatsToPlus91(phone: string)
    ensures ValidatePhoneNumber(phone) ==>
      |FormatPhoneNumber(phone)| == 13 && StartsWith(FormatPhoneNumber(phone), "+91")
    ensures !ValidatePhoneNumber(phone) ==> FormatPhoneNumber(phone) == phone
  {
    var digits := Digits(phone);
    if |digits| == 12 && StartsWith(digits, "91") {
      assert ("+" + digits)[..3] == "+" + digits[..2];
    } else if |digits| != 10 {
      FormatOtherwiseUnchanged(phone);
    }
  }

  lemma DigitsOfPlus(digits: string)
    requires forall i :: 0 <= i < |digits| ==> IsDigit(digits[i])
    ensures Digits("+" + digits) == digits
  {
    assert ("+" + digits)[1..] == digits;
    DigitsOfDigitsOnly(digits);
  }

  /** Formatting is idempotent: a formatted number formats to itself. */
  lemma FormatIdempotent(phone: string)
    ensures FormatPhoneNumber(FormatPhoneNumber(phone)) == FormatPhoneNumber(phone)
  {
    var digits := Digits(phone);
    if |digits| == 10 {
      assert "+91" + digits == "+" + ("91" + digits);
      DigitsOfPlus("91" + digits);
      assert StartsWith("91" + digits, "91");
    } else if |digits| == 12 && StartsWith(digits, "91") {
      DigitsOfPlus(digits);
    } else {
      FormatOtherwiseUnchanged(phone);
    }
  }

  /** A valid number and its formatted form are the same number: they
      have the same ten national digits. */
  lemma FormatKeepsNumber(phone: string)
    requires ValidatePhoneNumber(phone)
    ensures Digits(FormatPhoneNumber(phone)) == if |Digits(phone)| == 10 then "91" + Digits(phone) else Digits(phone)
  {
    var digits := Digits(phone);
    if |digits| == 10 {
      assert "+91" + digits == "+" + ("91" + digits);
      DigitsOfPlus("91" + digits);
    } else {
      DigitsOfPlus(digits);
    }
  }
}
