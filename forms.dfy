/**
 * The add-funds form (theaters_app/forms.py): a DecimalField limited to
 * MONEY_MAX_DIGITS digits of which at most MONEY_DECIMAL_PLACES follow the
 * point, then AddFundsForm.is_valid's own demands that the amount be given
 * and be positive. Instead of recording an error on the form, the model
 * returns it.
 */
module Forms {
  import opened Wrappers

  /**
   * MONEY_MAX_DIGITS and MONEY_DECIMAL_PLACES. The configuration module that
   * defines them is not part of this model; these are the limits of the
   * Client.money column the amount is added to.
   */
  const MoneyMaxDigits: nat := 10
  const MoneyDecimalPlaces: nat := 2

  /** A Python Decimal as written: coefficient times ten to the exponent, so "1.0" and "1" differ. */
  datatype Decimal = Decimal(coefficient: int, exponent: int)

  /**
   * The submitted `money` field after the field has parsed it: absent or
   * empty, not a finite number, or a number.
   */
  datatype AmountInput = Missing | NotANumber | Amount(value: Decimal)

  datatype FundsError =
    | Required          // the field's "This field is required."
    | Invalid           // the field's "Enter a number."
    | MaxDigits         // more than MoneyMaxDigits digits in total
    | MaxDecimalPlaces  // more than MoneyDecimalPlaces digits after the point
    | MaxWholeDigits    // more than MoneyMaxDigits - MoneyDecimalPlaces digits before the point
    | NotSpecified      // is_valid: the amount is zero
    | NotPositive       // is_valid: the amount is negative

  const NotSpecifiedMessage: string := "an error occured, money field was not specified!"
  const NotPositiveMessage: string := "you can only add positive amount of money!"

  datatype FormCheck = Accepted(money: Decimal) | Rejected(error: FundsError)

  /**
   * The message is_valid itself records on the `money` field for a verdict;
   * the field's own errors carry Django's messages, which are not modelled.
   */
  function Message(r: FormCheck): (m: Option<string>)
    ensures m.Some? <==> r.Rejected? && (r.error == NotSpecified || r.error == NotPositive)
    ensures m.Some? ==> m.value == NotSpecifiedMessage || m.value == NotPositiveMessage
  {
    match r
    case Rejected(NotSpecified) => Some(NotSpecifiedMessage)
    case Rejected(NotPositive) => Some(NotPositiveMessage)
    case _ => None
  }

  function Pow10(n: nat): (p: nat)
    ensures p >= 1
  {
    if n == 0 then 1 else 10 * Pow10(n - 1)
  }

  lemma {:induction false} Pow10Add(a: nat, b: nat)
    ensures Pow10(a + b) == Pow10(a) * Pow10(b)
  {
    if a > 0 {
      Pow10Add(a - 1, b);
    }
  }

  lemma {:induction false} Pow10Monotone(a: nat, b: nat)
    requires a <= b
    ensures Pow10(a) <= Pow10(b)
  {
    if a < b {
      Pow10Monotone(a, b - 1);
    }
  }

  /** Scaling a number below 10^len by 10^e keeps it below 10^(len + e). */
  lemma ScaledBelow(c: nat, len: nat, e: nat)
    requires c < Pow10(len)
    ensures c * Pow10(e) < Pow10(len + e)
  {
    var p := Pow10(e);
    MulMonotone(c + 1, Pow10(len), p);
    assert (c + 1) * p == c * p + p;
    Pow10Add(len, e);
  }

  lemma MulMonotone(a: int, b: int, p: nat)
    requires a <= b
    ensures a * p <= b * p
  {
  }

  function Abs(x: int): nat
  {
    if x < 0 then -x else x
  }

  /**
   * The number of digits of a coefficient as Decimal.as_tuple() lists them:
   * no leading zeros, and zero is the single digit 0.
   */
  function DigitCount(n: nat): (k: nat)
    ensures k >= 1 && n < Pow10(k)
    ensures k > 1 ==> Pow10(k - 1) <= n
  {
    if n < 10 then 1 else 1 + DigitCount(n / 10)
  }

  /**
   * DecimalValidator's count of digits in total and after the point. A
   * positive exponent adds trailing zeros to a non-zero coefficient; a
   * negative exponent larger than the digit count adds leading zeros after
   * the point.
   */
  function DigitsAndDecimals(d: Decimal): (r: (nat, nat))
    ensures r.1 == (if d.exponent < 0 then -d.exponent else 0)
    ensures 1 <= r.0 && r.1 <= r.0
  {
    var len := DigitCount(Abs(d.coefficient));
    if d.exponent >= 0 then
      ((if d.coefficient != 0 then len + d.exponent else len), 0)
    else if -d.exponent > len then (-d.exponent, -d.exponent)
    else (len, -d.exponent)
  }

  /** DecimalValidator(max_digits, decimal_places): the first limit the number breaks, if any. */
  function LimitError(d: Decimal): (r: Option<FundsError>)
    ensures r.Some? ==> r.value == MaxDigits || r.value == MaxDecimalPlaces || r.value == MaxWholeDigits
    ensures d.exponent < -(MoneyDecimalPlaces as int) ==> r.Some?
    ensures r.None? ==> DigitsAndDecimals(d).0 <= MoneyMaxDigits
  {
    var (digits, decimals) := DigitsAndDecimals(d);
    if digits > MoneyMaxDigits then Some(MaxDigits)
    else if decimals > MoneyDecimalPlaces then Some(MaxDecimalPlaces)
    else if digits - decimals > MoneyMaxDigits - MoneyDecimalPlaces then Some(MaxWholeDigits)
    else None
  }

  /**
   * AddFundsForm.is_valid: the field's own validation first (the inherited
   * is_valid), then a zero amount and a negative amount are refused.
   */
  function IsValid(input: AmountInput): (r: FormCheck)
    ensures r.Accepted? ==> input == Amount(r.money) && r.money.coefficient > 0
    ensures input.Missing? ==> r == Rejected(Required)
    ensures input.NotANumber? ==> r == Rejected(Invalid)
    ensures input.Amount? && input.value.coefficient == 0 ==> r.Rejected? && r.error != NotPositive
    ensures input.Amount? && input.value.coefficient < 0 ==> r.Rejected? && r.error != NotSpecified
  {
    match input
    case Missing => Rejected(Required)
    case NotANumber => Rejected(Invalid)
    case Amount(d) =>
      match LimitError(d)
      case Some(e) => Rejected(e)
      case None =>
        if d.coefficient == 0 then Rejected(NotSpecified)
        else if d.coefficient < 0 then Rejected(NotPositive)
        else Accepted(d)
  }

  /**
   * is_valid records a message of its own exactly when the field accepted a
   * number that is zero or negative: the "not specified" one for zero and the
   * "positive amount" one for a negative amount.
   */
  lemma RefusalMessages(input: AmountInput)
    ensures Message(IsValid(input)).Some? <==>
      input.Amount? && LimitError(input.value).None? && input.value.coefficient <= 0
    ensures input.Amount? && LimitError(input.value).None? && input.value.coefficient == 0 ==>
      Message(IsValid(input)) == Some(NotSpecifiedMessage)
    ensures input.Amount? && LimitError(input.value).None? && input.value.coefficient < 0 ==>
      Message(IsValid(input)) == Some(NotPositiveMessage)
  {
  }

  /** The amount in hundredths, the scale of the Client.money column. */
  function ToHundredths(d: Decimal): int
    requires d.exponent >= -2
  {
    d.coefficient * Pow10(d.exponent + 2)
  }

  /**
   * Every accepted amount has at most two decimal places and lies strictly
   * between 0 and 10^8, so it is a whole number of hundredths from 1 to
   * 10^10 - 1.
   */
  lemma AcceptedAmountRange(input: AmountInput)
    requires IsValid(input).Accepted?
    ensures var d := IsValid(input).money;
      && d.exponent >= -2
      && 1 <= ToHundredths(d) < Pow10(MoneyMaxDigits)
  {
    var d := input.value;
    var c := d.coefficient;
    var len := DigitCount(c);
    assert LimitError(d).None?;
    assert len + d.exponent <= MoneyMaxDigits - MoneyDecimalPlaces && d.exponent >= -2;
    var e: nat := d.exponent + 2;
    ScaledBelow(c, len, e);
    Pow10Monotone(len + e, MoneyMaxDigits);
    MulMonotone(1, c, Pow10(e));
  }

  /**
   * Conversely, every positive amount with at most two decimal places that
   * is below 10^10 hundredths is accepted, however it is written ("5000",
   * "1.5", "0.01").
   */
  lemma AmountsWithinLimitsAccepted(d: Decimal)
    requires d.coefficient > 0 && d.exponent >= -2 && ToHundredths(d) < Pow10(MoneyMaxDigits)
    ensures IsValid(Amount(d)) == Accepted(d)
  {
    var c := d.coefficient;
    var len := DigitCount(c);
    var e: nat := d.exponent + 2;
    Pow10Add(len - 1, e);
    MulMonotone(Pow10(len - 1), c, Pow10(e));
    if len - 1 + e >= MoneyMaxDigits {
      Pow10Monotone(MoneyMaxDigits, len - 1 + e);
      assert false;
    }
    assert len + d.exponent <= 8;
    var (digits, decimals) := DigitsAndDecimals(d);
    assert digits <= 10 && decimals <= 2 && digits - decimals <= 8;
    assert LimitError(d) == None;
  }

  /** is_valid accepts exactly the positive amounts of at most two places below 10^10 hundredths. */
  lemma IsValidAcceptsExactly(input: AmountInput)
    ensures IsValid(input).Accepted? <==>
      && input.Amount?
      && input.value.coefficient > 0
      && input.value.exponent >= -(MoneyDecimalPlaces as int)
      && ToHundredths(input.value) < Pow10(MoneyMaxDigits)
  {
    if IsValid(input).Accepted? {
      AcceptedAmountRange(input);
    } else if input.Amount? && input.value.coefficient > 0 && input.value.exponent >= -2
      && ToHundredths(input.value) < Pow10(MoneyMaxDigits) {
      AmountsWithinLimitsAccepted(input.value);
    }
  }

  /** An amount with more than MoneyDecimalPlaces digits after the point is refused by the digit limits. */
  lemma ExtraDecimalPlacesRejected(d: Decimal)
    requires d.exponent < -(MoneyDecimalPlaces as int)
    ensures IsValid(Amount(d)) == Rejected(MaxDigits) || IsValid(Amount(d)) == Rejected(MaxDecimalPlaces)
  {
  }

  /** A whole amount of 10^MoneyMaxDigits or more has too many digits in total. */
  lemma LargeAmountsRejected(d: Decimal)
    requires d.exponent >= 0
    requires Abs(d.coefficient) * Pow10(d.exponent) >= Pow10(MoneyMaxDigits)
    ensures IsValid(Amount(d)) == Rejected(MaxDigits)
  {
    var c := Abs(d.coefficient);
    var len := DigitCount(c);
    ScaledBelow(c, len, d.exponent);
    if len + d.exponent <= MoneyMaxDigits {
      Pow10Monotone(len + d.exponent, MoneyMaxDigits);
      assert false;
    }
    assert c != 0;
  }

  /**
   * The form tests' cases: eleven nines, 1.999, -1 and 0 are refused; 100
   * is accepted.
   */
  lemma FormExamples()
    ensures IsValid(Amount(Decimal(99_999_999_999, 0))) == Rejected(MaxDigits)
    ensures IsValid(Amount(Decimal(1_999, -3))) == Rejected(MaxDecimalPlaces)
    ensures IsValid(Amount(Decimal(-1, 0))) == Rejected(NotPositive)
    ensures IsValid(Amount(Decimal(0, 0))) == Rejected(NotSpecified)
    ensures IsValid(Amount(Decimal(100, 0))) == Accepted(Decimal(100, 0))
  {
    assert DigitsAndDecimals(Decimal(1_999, -3)) == (4, 3);
    assert DigitsAndDecimals(Decimal(100, 0)) == (3, 0);
    assert DigitsAndDecimals(Decimal(-1, 0)) == (1, 0);
    assert DigitsAndDecimals(Decimal(0, 0)) == (1, 0);
    LargeAmountsRejected(Decimal(99_999_999_999, 0));
  }
}
