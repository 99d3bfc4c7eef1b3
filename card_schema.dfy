/**
 * The request schema of a payment card: the four field validators and the
 * required fields of a card creation request. Every validator lets an absent
 * value (`None`) through unchanged.
 */
module CardSchema {
  import opened Wrappers
  import opened Text
  import CardRules

  /** Why a validator raised `ValueError` (or a required field was missing). */
  datatype FieldError = NotDigits | BadLength | OutOfRange | BadFormat | Missing

  /** `re.sub(r"[\s-]", "", v)`. */
  function RemoveWhitespaceAndDashes(s: string): (r: string)
    ensures |r| <= |s|
    ensures forall i :: 0 <= i < |r| ==> !IsSpace(r[i]) && r[i] != '-'
    ensures (forall i :: 0 <= i < |s| ==> !IsSpace(s[i]) && s[i] != '-') ==> r == s
  {
    if s == [] then []
    else if IsSpace(s[0]) || s[0] == '-' then RemoveWhitespaceAndDashes(s[1..])
    else [s[0]] + RemoveWhitespaceAndDashes(s[1..])
  }

  /** Removing whitespace and dashes distributes over concatenation, so the kept characters stay in order. */
  lemma {:induction false} RemoveWhitespaceAndDashesAppend(a: string, b: string)
    ensures RemoveWhitespaceAndDashes(a + b) == RemoveWhitespaceAndDashes(a) + RemoveWhitespaceAndDashes(b)
  {
    if a == [] {
      assert a + b == b;
    } else {
      assert (a + b)[0] == a[0];
      assert (a + b)[1..] == a[1..] + b;
      RemoveWhitespaceAndDashesAppend(a[1..], b);
    }
  }

  /** On one character: whitespace and dashes disappear and any other character is kept. */
  lemma RemoveWhitespaceAndDashesChar(c: char)
    ensures RemoveWhitespaceAndDashes([c]) == if IsSpace(c) || c == '-' then [] else [c]
  {
    assert [c][1..] == [];
  }

  /** `validate_card_number`: drop whitespace and dashes, then 13 to 19 digits. */
  function ValidateCardNumber(v: Option<string>): (r: Result<Option<string>, FieldError>)
    ensures v.None? ==> r == Ok(None)
    ensures v.Some? ==> (r.Ok? <==>
      IsDigitString(RemoveWhitespaceAndDashes(v.value)) && 13 <= |RemoveWhitespaceAndDashes(v.value)| <= 19)
    ensures v.Some? && r.Ok? ==>
      r.value.Some? && IsDigitString(r.value.value) && 13 <= |r.value.value| <= 19
      && |r.value.value| <= |v.value|
    ensures v.Some? && r.Ok? ==> r.value == Some(RemoveWhitespaceAndDashes(v.value))
  {
    match v
    case None => Ok(None)
    case Some(s) =>
      var n := RemoveWhitespaceAndDashes(s);
      if !IsDigitString(n) then Err(NotDigits)
      else if !(13 <= |n| <= 19) then Err(BadLength)
      else Ok(Some(n))
  }

  /**
   * A number the schema accepted is left alone by the payment core's own
   * separator removal, so the core classifies it by its leading digits and
   * checks it with the Luhn sum alone.
   */
  lemma AcceptedNumberReachesLuhn(v: string)
    requires ValidateCardNumber(Some(v)).Ok?
    ensures var n := ValidateCardNumber(Some(v)).value.value;
      CardRules.RemoveSeparators(n) == n
      && CardRules.GetCardType(n) == CardRules.Classify(n)
      && (CardRules.PassesLuhn(n) <==> CardRules.LuhnSum(CardRules.DigitsOf(n)) % 10 == 0)
  {
    var n := ValidateCardNumber(Some(v)).value.value;
    assert forall i :: 0 <= i < |n| ==> !CardRules.IsSeparator(n[i]) by {
      forall i | 0 <= i < |n| ensures !CardRules.IsSeparator(n[i]) {
        assert IsDigit(n[i]);
      }
    }
  }

  /** An accepted number is accepted again unchanged. */
  lemma CardNumberIdempotent(v: string)
    requires ValidateCardNumber(Some(v)).Ok?
    ensures ValidateCardNumber(ValidateCardNumber(Some(v)).value) == ValidateCardNumber(Some(v))
  {
    var n := ValidateCardNumber(Some(v)).value.value;
    assert forall i :: 0 <= i < |n| ==> !IsSpace(n[i]) && n[i] != '-' by {
      forall i | 0 <= i < |n| ensures !IsSpace(n[i]) && n[i] != '-' {
        assert IsDigit(n[i]);
      }
    }
  }

  /** `s.zfill(2)` for a digit string: one leading zero when it has a single digit. */
  function ZFill2(s: string): (r: string)
    requires IsDigitString(s)
    ensures IsDigitString(r) && |r| >= 2 && |r| >= |s|
    ensures DigitsValue(r) == DigitsValue(s)
    ensures |s| >= 2 ==> r == s
    ensures |s| == 1 ==> r == "0" + s
  {
    if |s| >= 2 then s
    else
      DigitsValueLeadingZero(s);
      "0" + s
  }

  /** `validate_expiry_month`: strip, digits only, a value from 1 to 12, zero-padded. */
  function ValidateExpiryMonth(v: Option<string>): (r: Result<Option<string>, FieldError>)
    ensures v.None? ==> r == Ok(None)
    ensures v.Some? ==> (r.Ok? <==> IsDigitString(Strip(v.value)) && 1 <= DigitsValue(Strip(v.value)) <= 12)
    ensures v.Some? && r.Ok? ==>
      r.value.Some? && IsDigitString(r.value.value) && |r.value.value| >= 2
      && DigitsValue(r.value.value) == DigitsValue(Strip(v.value))
    ensures v.Some? && r.Ok? && |Strip(v.value)| == 1 ==> r.value.value == "0" + Strip(v.value)
    ensures v.Some? && r.Ok? && |Strip(v.value)| >= 2 ==> r.value.value == Strip(v.value)
  {
    match v
    case None => Ok(None)
    case Some(s) =>
      var t := Strip(s);
      if !IsDigitString(t) then Err(NotDigits)
      else if !(1 <= DigitsValue(t) <= 12) then Err(OutOfRange)
      else Ok(Some(ZFill2(t)))
  }

  lemma DigitStringIsStripped(s: string)
    requires IsDigitString(s)
    ensures Strip(s) == s
  {
    assert !IsSpace(s[0]) && !IsSpace(s[|s| - 1]) by {
      assert IsDigit(s[0]) && IsDigit(s[|s| - 1]);
    }
    StripNoSpaceEnds(s);
  }

  /** Normalising an already normalised month returns it unchanged. */
  lemma ExpiryMonthIdempotent(v: string)
    requires ValidateExpiryMonth(Some(v)).Ok?
    ensures ValidateExpiryMonth(ValidateExpiryMonth(Some(v)).value) == ValidateExpiryMonth(Some(v))
  {
    var m := ValidateExpiryMonth(Some(v)).value.value;
    DigitStringIsStripped(m);
  }

  /** `validate_expiry_year`: strip, digits only; two digits kept, four cut to the last two. */
  function ValidateExpiryYear(v: Option<string>): (r: Result<Option<string>, FieldError>)
    ensures v.None? ==> r == Ok(None)
    ensures v.Some? ==> (r.Ok? <==> IsDigitString(Strip(v.value)) && (|Strip(v.value)| == 2 || |Strip(v.value)| == 4))
    ensures v.Some? && r.Ok? ==>
      r.value.Some? && IsDigitString(r.value.value) && |r.value.value| == 2
      && r.value.value == Strip(v.value)[|Strip(v.value)| - 2..]
  {
    match v
    case None => Ok(None)
    case Some(s) =>
      var t := Strip(s);
      if !IsDigitString(t) then Err(NotDigits)
      else if |t| == 2 then Ok(Some(t))
      else if |t| == 4 then Ok(Some(t[2..]))
      else Err(BadFormat)
  }

  /** Normalising an already normalised year returns it unchanged. */
  lemma ExpiryYearIdempotent(v: string)
    requires ValidateExpiryYear(Some(v)).Ok?
    ensures ValidateExpiryYear(ValidateExpiryYear(Some(v)).value) == ValidateExpiryYear(Some(v))
  {
    var y := ValidateExpiryYear(Some(v)).value.value;
    DigitStringIsStripped(y);
  }

  /** `validate_cvv`: strip, digits only, three or four of them. */
  function ValidateCvv(v: Option<string>): (r: Result<Option<string>, FieldError>)
    ensures v.None? ==> r == Ok(None)
    ensures v.Some? ==> (r.Ok? <==> IsDigitString(Strip(v.value)) && (|Strip(v.value)| == 3 || |Strip(v.value)| == 4))
    ensures v.Some? && r.Ok? ==> r.value == Some(Strip(v.value))
  {
    match v
    case None => Ok(None)
    case Some(s) =>
      var t := Strip(s);
      if !IsDigitString(t) then Err(NotDigits)
      else if !(|t| == 3 || |t| == 4) then Err(BadLength)
      else Ok(Some(t))
  }

  /**
   * The card fields of a request body (`PaymentCardBase`); `None` is a field
   * the request did not set.
   */
  datatype CardFields = CardFields(
    holderName: Option<string>,
    number: Option<string>,
    expiryMonth: Option<string>,
    expiryYear: Option<string>,
    cvv: Option<string>,
    cardType: Option<string>,
    isDefault: Option<bool>)

  /** A validated `PaymentCardCreate`: the five card fields are required. */
  datatype CardCreate = CardCreate(
    holderName: string,
    number: string,
    expiryMonth: string,
    expiryYear: string,
    cvv: string,
    isDefault: bool)

  /** Runs the four validators over whichever fields are present. */
  function ValidateFields(f: CardFields): (r: Result<CardFields, FieldError>)
    ensures r.Ok? <==>
      ValidateCardNumber(f.number).Ok? && ValidateExpiryMonth(f.expiryMonth).Ok?
      && ValidateExpiryYear(f.expiryYear).Ok? && ValidateCvv(f.cvv).Ok?
    ensures r.Ok? ==>
      r.value.holderName == f.holderName && r.value.cardType == f.cardType
      && r.value.isDefault == f.isDefault
      && r.value.number.Some? == f.number.Some? && r.value.cvv.Some? == f.cvv.Some?
      && r.value.expiryMonth.Some? == f.expiryMonth.Some? && r.value.expiryYear.Some? == f.expiryYear.Some?
    ensures r.Ok? ==>
      r.value.number == ValidateCardNumber(f.number).value
      && r.value.expiryMonth == ValidateExpiryMonth(f.expiryMonth).value
      && r.value.expiryYear == ValidateExpiryYear(f.expiryYear).value
      && r.value.cvv == ValidateCvv(f.cvv).value
  {
    match ValidateCardNumber(f.number)
    case Err(e) => Err(e)
    case Ok(number) =>
      match ValidateExpiryMonth(f.expiryMonth)
      case Err(e) => Err(e)
      case Ok(month) =>
        match ValidateExpiryYear(f.expiryYear)
        case Err(e) => Err(e)
        case Ok(year) =>
          match ValidateCvv(f.cvv)
          case Err(e) => Err(e)
          case Ok(cvv) => Ok(CardFields(f.holderName, number, month, year, cvv, f.cardType, f.isDefault))
  }

  /**
   * `PaymentCardCreate`: holder name, number, expiry month and year and CVV
   * must be present and pass their validators; `is_default` defaults to false.
   */
  function MakeCardCreate(f: CardFields): (r: Result<CardCreate, FieldError>)
    ensures r.Ok? ==>
      f.holderName.Some? && f.number.Some? && f.expiryMonth.Some? && f.expiryYear.Some? && f.cvv.Some?
    ensures r.Ok? ==>
      IsDigitString(r.value.number) && 13 <= |r.value.number| <= 19
      && IsDigitString(r.value.expiryMonth) && 1 <= DigitsValue(r.value.expiryMonth) <= 12
      && IsDigitString(r.value.expiryYear) && |r.value.expiryYear| == 2
      && IsDigitString(r.value.cvv) && 3 <= |r.value.cvv| <= 4
      && r.value.holderName == f.holderName.value
      && r.value.isDefault == f.isDefault.GetOr(false)
    ensures (f.holderName.None? || f.number.None? || f.expiryMonth.None? || f.expiryYear.None? || f.cvv.None?)
      ==> r.Err?
    ensures r.Ok? <==>
      f.holderName.Some? && f.number.Some? && f.expiryMonth.Some? && f.expiryYear.Some? && f.cvv.Some?
      && ValidateFields(f).Ok?
    ensures r.Ok? ==>
      r.value.number == ValidateCardNumber(f.number).value.value
      && r.value.expiryMonth == ValidateExpiryMonth(f.expiryMonth).value.value
      && r.value.expiryYear == ValidateExpiryYear(f.expiryYear).value.value
      && r.value.cvv == ValidateCvv(f.cvv).value.value
  {
    if f.holderName.None? || f.number.None? || f.expiryMonth.None? || f.expiryYear.None? || f.cvv.None? then
      Err(Missing)
    else
      match ValidateFields(f)
      case Err(e) => Err(e)
      case Ok(g) =>
        Ok(CardCreate(g.holderName.value, g.number.value, g.expiryMonth.value, g.expiryYear.value,
                      g.cvv.value, g.isDefault.GetOr(false)))
  }
}
