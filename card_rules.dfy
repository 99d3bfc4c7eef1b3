/**
 * The payment core: card-network classification, the Luhn check, card
 * validation, the simulated gateway and the empty-string guards of the card
 * cipher. The repository carries two snapshots of this file, one under
 * backend/ with Chinese messages and one under rental-platform-backend-main/
 * with English messages; their logic is identical, so it is modelled once and
 * the snapshot only selects the message text.
 */
module CardRules {
  import opened Wrappers
  import opened Text
  import opened PaymentModel

  datatype Snapshot = Backend | PlatformMain

  // ---------------------------------------------------------------------------
  // Separators
  // ---------------------------------------------------------------------------

  predicate IsSeparator(c: char) { c == ' ' || c == '-' }

  /** `s.replace(' ', '').replace('-', '')`: the two passes remove both kinds at once. */
  function RemoveSeparators(s: string): (r: string)
    ensures |r| <= |s|
    ensures forall i :: 0 <= i < |r| ==> !IsSeparator(r[i])
    ensures (forall i :: 0 <= i < |s| ==> !IsSeparator(s[i])) ==> r == s
  {
    if s == [] then []
    else if IsSeparator(s[0]) then RemoveSeparators(s[1..])
    else [s[0]] + RemoveSeparators(s[1..])
  }

  /** On one character: a separator disappears and any other character is kept. */
  lemma RemoveSeparatorsChar(c: char)
    ensures RemoveSeparators([c]) == if IsSeparator(c) then [] else [c]
  {
    assert [c][1..] == [];
  }

  lemma {:induction false} RemoveSeparatorsAppend(a: string, b: string)
    ensures RemoveSeparators(a + b) == RemoveSeparators(a) + RemoveSeparators(b)
  {
    if a == [] {
      assert a + b == b;
    } else {
      assert (a + b)[0] == a[0];
      assert (a + b)[1..] == a[1..] + b;
      RemoveSeparatorsAppend(a[1..], b);
    }
  }

  // ---------------------------------------------------------------------------
  // Classification by prefix
  // ---------------------------------------------------------------------------

  datatype CardType = Visa | MasterCard | AmericanExpress | Discover | UnionPay | Unknown

  /** The label stored in the `card_type` column. */
  function CardTypeName(t: CardType): string {
    match t
    case Visa => "Visa"
    case MasterCard => "MasterCard"
    case AmericanExpress => "American Express"
    case Discover => "Discover"
    case UnionPay => "UnionPay"
    case Unknown => "Unknown"
  }

  /** The first prefix test that matches decides; `'6'` is tested before `'62'`. */
  function Classify(n: string): CardType {
    if StartsWith(n, "4") then Visa
    else if StartsWith(n, "51") || StartsWith(n, "52") || StartsWith(n, "53")
         || StartsWith(n, "54") || StartsWith(n, "55") then MasterCard
    else if StartsWith(n, "34") || StartsWith(n, "37") then AmericanExpress
    else if StartsWith(n, "6") then Discover
    else if StartsWith(n, "62") || StartsWith(n, "81") then UnionPay
    else Unknown
  }

  /** The number begins with one of the MasterCard prefixes 51 to 55. */
  predicate MasterCardPrefix(n: string) {
    |n| >= 2 && n[0] == '5' && '1' <= n[1] <= '5'
  }

  /**
   * `get_card_type`. Because `'6'` shadows `'62'`, UnionPay is returned exactly
   * for numbers that begin with 81, and a 62 number is Discover.
   */
  function GetCardType(cardNumber: string): (t: CardType)
    ensures t == Visa <==> StartsWith(RemoveSeparators(cardNumber), "4")
    ensures t == MasterCard <==> MasterCardPrefix(RemoveSeparators(cardNumber))
    ensures t == AmericanExpress <==>
      StartsWith(RemoveSeparators(cardNumber), "34") || StartsWith(RemoveSeparators(cardNumber), "37")
    ensures t == Discover <==> StartsWith(RemoveSeparators(cardNumber), "6")
    ensures StartsWith(RemoveSeparators(cardNumber), "62") ==> t == Discover
    ensures t == UnionPay <==> StartsWith(RemoveSeparators(cardNumber), "81")
    ensures t == Unknown <==>
      var n := RemoveSeparators(cardNumber);
      !(StartsWith(n, "4") || MasterCardPrefix(n) || StartsWith(n, "34") || StartsWith(n, "37")
        || StartsWith(n, "6") || StartsWith(n, "81"))
  {
    var n := RemoveSeparators(cardNumber);
    PrefixFacts(n);
    Classify(n)
  }

  /** The prefix tests of `Classify`, character by character. */
  lemma PrefixFacts(n: string)
    ensures StartsWith(n, "4") <==> |n| >= 1 && n[0] == '4'
    ensures StartsWith(n, "6") <==> |n| >= 1 && n[0] == '6'
    ensures forall p :: |p| == 2 ==> (StartsWith(n, p) <==> |n| >= 2 && n[0] == p[0] && n[1] == p[1])
  {
  }

  /** Inserting a space or a dash anywhere never changes the classification. */
  lemma SeparatorInsertionKeepsType(a: string, b: string, c: char)
    requires IsSeparator(c)
    ensures GetCardType(a + [c] + b) == GetCardType(a + b)
  {
    RemoveSeparatorsAppend(a + [c], b);
    RemoveSeparatorsAppend(a, [c]);
    RemoveSeparatorsAppend(a, b);
    assert RemoveSeparators([c]) == [];
    assert RemoveSeparators(a + [c] + b) == RemoveSeparators(a + b);
  }

  // ---------------------------------------------------------------------------
  // Luhn check (ISO/IEC 7812-1, Annex B)
  // ---------------------------------------------------------------------------

  type Digit = d: nat | d <= 9

  function DigitsOf(s: string): (ds: seq<Digit>)
    requires forall i :: 0 <= i < |s| ==> IsDigit(s[i])
    ensures |ds| == |s|
    ensures forall i :: 0 <= i < |s| ==> ds[i] == DigitValue(s[i])
  {
    seq(|s|, i requires 0 <= i < |s| => DigitValue(s[i]))
  }

  /** A doubled digit, reduced by 9 when above 9. */
  function Doubled(d: Digit): Digit {
    if 2 * d > 9 then 2 * d - 9 else 2 * d
  }

  /**
   * The "double-add-double" sum: counting from the rightmost digit as
   * position 1, digits at odd positions are added as they are and digits at
   * even positions are added doubled.
   */
  function LuhnSum(ds: seq<Digit>): nat
    decreases |ds|
  {
    if |ds| == 0 then 0
    else if |ds| == 1 then ds[0]
    else LuhnSum(ds[..|ds| - 2]) + Doubled(ds[|ds| - 2]) + ds[|ds| - 1]
  }

  /** What `is_valid_card_number` accepts. */
  predicate PassesLuhn(cardNumber: string) {
    var n := RemoveSeparators(cardNumber);
    IsDigitString(n) && 13 <= |n| <= 19 && LuhnSum(DigitsOf(n)) % 10 == 0
  }

  /** `digits[-1::-2]`: the odd positions, read from the right. */
  function OddFromRight(ds: seq<Digit>): seq<Digit>
    decreases |ds|
  {
    if |ds| == 0 then []
    else if |ds| == 1 then [ds[0]]
    else [ds[|ds| - 1]] + OddFromRight(ds[..|ds| - 2])
  }

  /** `digits[-2::-2]`: the even positions, read from the right. */
  function EvenFromRight(ds: seq<Digit>): seq<Digit>
    decreases |ds|
  {
    if |ds| < 2 then [] else [ds[|ds| - 2]] + EvenFromRight(ds[..|ds| - 2])
  }

  function Sum(xs: seq<nat>): nat {
    if xs == [] then 0 else xs[0] + Sum(xs[1..])
  }

  function SumDoubled(xs: seq<Digit>): nat {
    if xs == [] then 0 else Doubled(xs[0]) + SumDoubled(xs[1..])
  }

  /** The two strided slices of the source add up to the Annex B sum. */
  lemma {:induction false} SlicesSumToLuhn(ds: seq<Digit>)
    ensures Sum(OddFromRight(ds)) + SumDoubled(EvenFromRight(ds)) == LuhnSum(ds)
    decreases |ds|
  {
    if |ds| >= 2 {
      var p := ds[..|ds| - 2];
      SlicesSumToLuhn(p);
      var odd := OddFromRight(ds);
      assert odd[1..] == OddFromRight(p);
      var even := EvenFromRight(ds);
      assert even[1..] == EvenFromRight(p);
    }
  }

  lemma {:induction false} SumOfDoubledDigits(even: seq<Digit>, doubled: seq<nat>)
    requires |doubled| == |even|
    requires forall k :: 0 <= k < |even| ==> doubled[k] == Doubled(even[k])
    ensures Sum(doubled) == SumDoubled(even)
  {
    if even != [] {
      SumOfDoubledDigits(even[1..], doubled[1..]);
    }
  }

  /** `is_valid_card_number`: strip separators, require 13..19 digits, then the Luhn sum. */
  method IsValidCardNumber(cardNumber: string) returns (valid: bool)
    ensures valid == PassesLuhn(cardNumber)
    ensures valid ==> IsDigitString(RemoveSeparators(cardNumber))
    ensures valid ==> 13 <= |RemoveSeparators(cardNumber)| <= 19
  {
    var n := RemoveSeparators(cardNumber);
    if !IsDigitString(n) {
      return false;
    }
    if !(13 <= |n| <= 19) {
      return false;
    }
    var digits := DigitsOf(n);
    var oddDigits := OddFromRight(digits);
    var evenDigits := EvenFromRight(digits);
    var doubledDigits: seq<nat> := [];
    var i := 0;
    while i < |evenDigits|
      invariant 0 <= i <= |evenDigits|
      invariant |doubledDigits| == i
      invariant forall k :: 0 <= k < i ==> doubledDigits[k] == Doubled(evenDigits[k])
    {
      var doubled: int := evenDigits[i] as int * 2;
      if doubled > 9 {
        doubled := doubled - 9;
      }
      doubledDigits := doubledDigits + [doubled];
      i := i + 1;
    }
    SumOfDoubledDigits(evenDigits, doubledDigits);
    SlicesSumToLuhn(digits);
    var total := Sum(oddDigits) + Sum(doubledDigits);
    valid := total % 10 == 0;
  }

  /** The weight digit `j` contributes to the Luhn sum. */
  function Weight(ds: seq<Digit>, j: nat): Digit
    requires j < |ds|
  {
    if (|ds| - 1 - j) % 2 == 0 then ds[j] else Doubled(ds[j])
  }

  /** Changing one digit changes the sum by exactly the change of its weight. */
  lemma {:induction false} LuhnSumUpdate(ds: seq<Digit>, j: nat, d: Digit)
    requires j < |ds|
    ensures LuhnSum(ds[j := d]) + Weight(ds, j) == LuhnSum(ds) + Weight(ds[j := d], j)
    decreases |ds|
  {
    var n := |ds|;
    if j + 2 < n {
      var es := ds[j := d];
      var p := ds[..n - 2];
      assert es[..n - 2] == p[j := d];
      assert es[n - 2] == ds[n - 2] && es[n - 1] == ds[n - 1];
      LuhnSumUpdate(p, j, d);
      WeightDropsLastPair(ds, j);
      WeightDropsLastPair(es, j);
    } else {
      LuhnSumUpdateLastPair(ds, j, d);
    }
  }

  /** The same for one of the last two digits, which the recursion of the sum reaches first. */
  lemma LuhnSumUpdateLastPair(ds: seq<Digit>, j: nat, d: Digit)
    requires j < |ds| <= j + 2
    ensures LuhnSum(ds[j := d]) + Weight(ds, j) == LuhnSum(ds) + Weight(ds[j := d], j)
  {
    var n := |ds|;
    var es := ds[j := d];
    if n >= 2 {
      assert es[..n - 2] == ds[..n - 2];
      if j == n - 1 {
        assert es[n - 2] == ds[n - 2];
      } else {
        assert es[n - 1] == ds[n - 1];
      }
    }
  }

  /** Dropping the last two digits keeps the weight of an earlier digit. */
  lemma WeightDropsLastPair(ds: seq<Digit>, j: nat)
    requires j + 2 < |ds|
    ensures Weight(ds, j) == Weight(ds[..|ds| - 2], j)
  {
    var x := |ds| - 3 - j;
    assert |ds| - 1 - j == x + 2 && |ds[..|ds| - 2]| - 1 - j == x;
    assert (x + 2) % 2 == x % 2;
  }

  /** Doubling is one-to-one on digits. */
  lemma DoubledInjective(a: Digit, b: Digit)
    requires Doubled(a) == Doubled(b)
    ensures a == b
  {
  }

  /**
   * The Luhn check detects every single-digit substitution: a digit string
   * that passes fails once any one digit is replaced by a different digit.
   */
  lemma SingleDigitErrorDetected(ds: seq<Digit>, j: nat, d: Digit)
    requires j < |ds| && d != ds[j]
    requires LuhnSum(ds) % 10 == 0
    ensures LuhnSum(ds[j := d]) % 10 != 0
  {
    LuhnSumUpdate(ds, j, d);
    if (|ds| - 1 - j) % 2 != 0 && Doubled(d) == Doubled(ds[j]) {
      DoubledInjective(d, ds[j]);
    }
    var delta := Weight(ds[j := d], j) - Weight(ds, j);
    NonZeroShiftLeavesMultiple(LuhnSum(ds), delta);
  }

  lemma NonZeroShiftLeavesMultiple(a: int, delta: int)
    requires a % 10 == 0 && -10 < delta < 10 && delta != 0
    ensures (a + delta) % 10 != 0
  {
  }

  // ---------------------------------------------------------------------------
  // validate_card
  // ---------------------------------------------------------------------------

  datatype CardVerdict = CardOk | BadNumber | CardExpired | AmexCvvLength | CvvLength

  /** `int(...)` raised on the expiry month or year. */
  datatype ValueError = ValueError

  /** The clock reading `validate_card` takes from `datetime.now()`. */
  datatype Today = Today(year: int, month: int)

  /** Past expiry: an earlier (two-digit) year, or the same year and an earlier month. */
  predicate ExpiryPassed(expiryYear: int, expiryMonth: int, today: Today) {
    var currentYear := today.year % 100;
    expiryYear < currentYear || (expiryYear == currentYear && expiryMonth < today.month)
  }

  function RequiredCvvLength(t: CardType): nat {
    if t == AmericanExpress then 4 else 3
  }

  /**
   * `validate_card`: the Luhn check first, then the expiry (the year is
   * parsed before the month, and a non-numeric one raises), then the CVV length.
   */
  function ValidateCard(cardNumber: string, expiryMonth: string, expiryYear: string, cvv: string, today: Today)
    : (r: Result<CardVerdict, ValueError>)
    ensures !PassesLuhn(cardNumber) ==> r == Ok(BadNumber)
    ensures r.Err? <==>
      PassesLuhn(cardNumber) && (ParseInt(expiryYear).None? || ParseInt(expiryMonth).None?)
    ensures r == Ok(CardExpired) <==>
      PassesLuhn(cardNumber) && ParseInt(expiryYear).Some? && ParseInt(expiryMonth).Some?
      && ExpiryPassed(ParseInt(expiryYear).value, ParseInt(expiryMonth).value, today)
    ensures r == Ok(CardOk) <==>
      PassesLuhn(cardNumber) && ParseInt(expiryYear).Some? && ParseInt(expiryMonth).Some?
      && !ExpiryPassed(ParseInt(expiryYear).value, ParseInt(expiryMonth).value, today)
      && |cvv| == RequiredCvvLength(GetCardType(cardNumber))
    ensures r == Ok(AmexCvvLength) ==> GetCardType(cardNumber) == AmericanExpress && |cvv| != 4
    ensures r == Ok(CvvLength) ==> GetCardType(cardNumber) != AmericanExpress && |cvv| != 3
  {
    if !PassesLuhn(cardNumber) then Ok(BadNumber)
    else
      match ParseInt(expiryYear)
      case None => Err(ValueError)
      case Some(year) =>
        match ParseInt(expiryMonth)
        case None => Err(ValueError)
        case Some(month) =>
          if ExpiryPassed(year, month, today) then Ok(CardExpired)
          else
            var cardType := GetCardType(cardNumber);
            if cardType == AmericanExpress && |cvv| != 4 then Ok(AmexCvvLength)
            else if cardType != AmericanExpress && |cvv| != 3 then Ok(CvvLength)
            else Ok(CardOk)
  }

  function VerdictMessage(s: Snapshot, v: CardVerdict): string {
    match s
    case Backend => (
      match v
      case CardOk => "\U{5361}\U{9A8C}\U{8BC1}\U{901A}\U{8FC7}"
      case BadNumber => "\U{65E0}\U{6548}\U{7684}\U{5361}\U{53F7}"
      case CardExpired => "\U{5361}\U{5DF2}\U{8FC7}\U{671F}"
      case AmexCvvLength => "American Express\U{5361}\U{7684}CVV\U{5FC5}\U{987B}\U{662F}4\U{4F4D}"
      case CvvLength => "CVV\U{5FC5}\U{987B}\U{662F}3\U{4F4D}")
    case PlatformMain => (
      match v
      case CardOk => "Card validation successful"
      case BadNumber => "Invalid card number"
      case CardExpired => "Card has expired"
      case AmexCvvLength => "American Express cards must have a 4-digit CVV"
      case CvvLength => "CVV must be 3 digits")
  }

  /** The `(ok, message)` pair a snapshot returns; `ok` holds only when every check passed. */
  function ValidateCardReply(s: Snapshot, cardNumber: string, expiryMonth: string, expiryYear: string,
                             cvv: string, today: Today): (r: Result<(bool, string), ValueError>)
    ensures r.Ok? && r.value.0 ==>
      PassesLuhn(cardNumber) && |cvv| == RequiredCvvLength(GetCardType(cardNumber))
  {
    match ValidateCard(cardNumber, expiryMonth, expiryYear, cvv, today)
    case Err(e) => Err(e)
    case Ok(v) => Ok((v == CardOk, VerdictMessage(s, v)))
  }

  // ---------------------------------------------------------------------------
  // process_payment (simulated gateway)
  // ---------------------------------------------------------------------------

  datatype DeclineCode = InsufficientFunds | CardDeclined | ExpiredCard | InvalidCvc

  function DeclineCodeName(c: DeclineCode): string {
    match c
    case InsufficientFunds => "insufficient_funds"
    case CardDeclined => "card_declined"
    case ExpiredCard => "expired_card"
    case InvalidCvc => "invalid_cvc"
  }

  function DeclineMessage(s: Snapshot, c: DeclineCode): string {
    match s
    case Backend => (
      match c
      case InsufficientFunds => "\U{4F59}\U{989D}\U{4E0D}\U{8DB3}"
      case CardDeclined => "\U{5361}\U{88AB}\U{62D2}\U{7EDD}"
      case ExpiredCard => "\U{5361}\U{5DF2}\U{8FC7}\U{671F}"
      case InvalidCvc => "\U{65E0}\U{6548}\U{7684}\U{5B89}\U{5168}\U{7801}")
    case PlatformMain => (
      match c
      case InsufficientFunds => "Insufficient funds"
      case CardDeclined => "Card declined"
      case ExpiredCard => "Card has expired"
      case InvalidCvc => "Invalid security code")
  }

  /**
   * The random draws of one gateway call: a 95% success draw with its
   * generated transaction id, or a failure draw with one of the four codes.
   */
  datatype GatewayDraw = Approve(transactionId: string) | Decline(code: DeclineCode)

  /** Twelve characters from A-Z and 0-9, as `random.choices` draws them. */
  predicate IsTransactionId(t: string) {
    |t| == 12 && forall i :: 0 <= i < |t| ==> ('A' <= t[i] <= 'Z' || '0' <= t[i] <= '9')
  }

  predicate WellFormedDraw(draw: GatewayDraw) {
    draw.Approve? ==> IsTransactionId(draw.transactionId)
  }

  datatype GatewayResult = GatewayResult(
    success: bool,
    status: PaymentStatus,
    transactionId: Option<string>,
    errorCode: Option<DeclineCode>,
    message: string)

  /**
   * `process_payment`: a non-positive amount fails without drawing anything;
   * otherwise the draw decides between a completed payment with a transaction
   * id and a failed one with an error code.
   */
  function ProcessPayment(s: Snapshot, amount: real, draw: GatewayDraw): (r: GatewayResult)
    requires WellFormedDraw(draw)
    ensures amount <= 0.0 ==> !r.success && r.status == Failed && r.transactionId.None? && r.errorCode.None?
    ensures amount > 0.0 ==> (r.success <==> draw.Approve?)
    ensures r.success ==> r.status == Completed && r.transactionId.Some? && IsTransactionId(r.transactionId.value)
    ensures !r.success ==> r.status == Failed && r.transactionId.None?
    ensures amount > 0.0 && draw.Decline? ==> r.errorCode == Some(draw.code)
  {
    if amount <= 0.0 then
      GatewayResult(false, Failed, None, None,
        if s == Backend then "\U{652F}\U{4ED8}\U{91D1}\U{989D}\U{5FC5}\U{987B}\U{5927}\U{4E8E}0"
        else "Payment amount must be greater than 0")
    else
      match draw
      case Approve(id) =>
        GatewayResult(true, Completed, Some(id), None,
          if s == Backend then "\U{652F}\U{4ED8}\U{6210}\U{529F}" else "Payment successful")
      case Decline(code) =>
        GatewayResult(false, Failed, None, Some(code),
          (if s == Backend then "\U{652F}\U{4ED8}\U{5931}\U{8D25}: " else "Payment failed: ")
          + DeclineMessage(s, code))
  }

  // ---------------------------------------------------------------------------
  // Card cipher
  // ---------------------------------------------------------------------------

  /** The symmetric cipher behind `encrypt_card_data`/`decrypt_card_data`. */
  datatype Cipher = Cipher(encrypt: string -> string, decrypt: string -> string)

  /** What a working cipher promises: non-empty text encrypts to non-empty text that decrypts back. */
  ghost predicate RoundTrips(c: Cipher) {
    forall x: string {:trigger c.encrypt(x)} :: x != [] ==> c.encrypt(x) != [] && c.decrypt(c.encrypt(x)) == x
  }

  /** `encrypt_card_data`: the empty string is returned as it is. */
  function EncryptCardData(c: Cipher, data: string): (r: string)
    ensures data == [] ==> r == []
  {
    if data == [] then [] else c.encrypt(data)
  }

  /** `decrypt_card_data`: the empty string is returned as it is. */
  function DecryptCardData(c: Cipher, data: string): (r: string)
    ensures data == [] ==> r == []
  {
    if data == [] then [] else c.decrypt(data)
  }

  /** With a working cipher the guarded pair round-trips on every string, the empty one included. */
  lemma CardDataRoundTrip(c: Cipher, x: string)
    requires RoundTrips(c)
    ensures DecryptCardData(c, EncryptCardData(c, x)) == x
  {
    if x != [] {
      assert c.encrypt(x) != [];
    }
  }
}
