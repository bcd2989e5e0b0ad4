/** The checkout form (components/PaymentScreen.tsx): the input sanitisers for the
    card number, expiry date and CVV, the field validators (each a small regular
    language), the error bookkeeping of `handleChange` and the `handlePay` guard. */
module Payment {
  import opened Types
  import opened Text

  // ---------------------------------------------------------------------------
  // The validators of `validate` (components/PaymentScreen.tsx:49-64)

  /** `value.replace(/\s/g, '').match(/^\d{16}$/)`. */
  predicate CardNumberOk(s: string) {
    var t := RemoveWhitespace(s);
    |t| == 16 && AllDigits(t)
  }

  /** The two characters of a month `01`-`12`: `0[1-9]|1[0-2]`. */
  predicate MonthOk(a: char, b: char) {
    (a == '0' && '1' <= b <= '9') || (a == '1' && '0' <= b <= '2')
  }

  /** `/^(0[1-9]|1[0-2])\/\d{2}$/`. */
  predicate ExpiryOk(s: string) {
    |s| == 5 && MonthOk(s[0], s[1]) && s[2] == '/' && IsDigit(s[3]) && IsDigit(s[4])
  }

  /** `/^\d{3,4}$/`. */
  predicate CvvOk(s: string) {
    (|s| == 3 || |s| == 4) && AllDigits(s)
  }

  // ---------------------------------------------------------------------------
  // The sanitisers (components/PaymentScreen.tsx:92-106, 194)

  /** `value.replace(/(\d{4})(?=\d)/g, '$1 ')`: scanning left to right, four digits
      followed by a digit are replaced by themselves and a space, and the scan resumes
      after them; elsewhere the scan advances one character. */
  function GroupFour(s: string): string
    decreases |s|
  {
    if |s| >= 5 && AllDigits(s[..5]) then s[..4] + " " + GroupFour(s[4..])
    else if s == [] then []
    else [s[0]] + GroupFour(s[1..])
  }

  /** The card number as `handleCardNumberChange` stores it. */
  function FormatCardNumber(raw: string): string {
    GroupFour(Truncate(DigitsOnly(raw), 16))
  }

  /** The expiry date as `handleExpiryChange` stores it. */
  function FormatExpiry(raw: string): (r: string)
    ensures |r| <= 5
    ensures var v := Truncate(DigitsOnly(raw), 4);
            (|v| >= 2 ==> r == v[..2] + "/" + v[2..]) && (|v| < 2 ==> r == v)
  {
    var v := Truncate(DigitsOnly(raw), 4);
    if |v| >= 2 then v[..2] + "/" + v[2..] else v
  }

  /** The CVV input's `replace(/\D/g, '').slice(0, 4)`. */
  function SanitizeCvv(raw: string): (r: string)
    ensures AllDigits(r) && |r| <= 4
    ensures |r| == if |DigitsOnly(raw)| <= 4 then |DigitsOnly(raw)| else 4
    ensures r == DigitsOnly(raw)[..|r|]
  {
    Truncate(DigitsOnly(raw), 4)
  }

  lemma {:induction false} GroupFourShort(d: string)
    requires AllDigits(d) && |d| < 5
    ensures GroupFour(d) == d
    decreases |d|
  {
    if d != [] {
      GroupFourShort(d[1..]);
    }
  }

  /** A digit string is left alone except for one space after each full group of
      four that another digit follows. */
  lemma GroupFourDigits(d: string)
    requires AllDigits(d)
    ensures |d| >= 5 ==> GroupFour(d) == d[..4] + " " + GroupFour(d[4..])
    ensures |d| < 5 ==> GroupFour(d) == d
  {
    if |d| < 5 {
      GroupFourShort(d);
    }
  }

  /** Removing the spaces gives back the digits. */
  lemma {:induction false} GroupFourRoundTrip(d: string)
    requires AllDigits(d)
    ensures RemoveWhitespace(GroupFour(d)) == d
    decreases |d|
  {
    GroupFourDigits(d);
    if |d| >= 5 {
      var head, tail := d[..4], d[4..];
      assert AllDigits(head) && AllDigits(tail) by {
        assert forall i :: 0 <= i < |head| ==> head[i] == d[i];
        assert forall i :: 0 <= i < |tail| ==> tail[i] == d[i + 4];
      }
      GroupFourRoundTrip(tail);
      SpaceAfterDigitsRemoved(head, GroupFour(tail));
      assert head + tail == d;
    } else {
      assert forall i :: 0 <= i < |d| ==> IsDigit(d[i]);
    }
  }

  /** The space the formatter inserts after a group of digits is removed again. */
  lemma SpaceAfterDigitsRemoved(head: string, rest: string)
    requires AllDigits(head)
    ensures RemoveWhitespace(head + " " + rest) == head + RemoveWhitespace(rest)
  {
    var spaced := head + " ";
    RemoveWhitespaceConcat(spaced, rest);
    RemoveWhitespaceConcat(head, " ");
    assert forall i :: 0 <= i < |head| ==> !IsWhitespace(head[i]) by {
      assert forall i :: 0 <= i < |head| ==> IsDigit(head[i]);
    }
    assert RemoveWhitespace(head) == head;
    assert RemoveWhitespace(" ") == [];
    assert RemoveWhitespace(spaced) == head;
  }

  /** The formatted number never ends in a space, and has exactly one space per full
      group of four digits that another digit follows. */
  lemma {:induction false} GroupFourShape(d: string)
    requires AllDigits(d)
    ensures GroupFour(d) == [] <==> d == []
    ensures d != [] ==> IsDigit(GroupFour(d)[|GroupFour(d)| - 1])
    ensures |GroupFour(d)| == |d| + (if d == [] then 0 else (|d| - 1) / 4)
    decreases |d|
  {
    GroupFourDigits(d);
    if |d| >= 5 {
      GroupFourShape(d[4..]);
      var rest := GroupFour(d[4..]);
      assert GroupFour(d) == (d[..4] + " ") + rest;
      assert GroupFour(d)[|GroupFour(d)| - 1] == rest[|rest| - 1];
    }
  }

  /** The card formatter keeps at most sixteen digits, never leaves a trailing space
      and produces at most nineteen characters; removing its spaces gives the kept
      digits. */
  lemma CardFormatShape(raw: string)
    ensures var f, v := FormatCardNumber(raw), Truncate(DigitsOnly(raw), 16);
            RemoveWhitespace(f) == v && |f| <= 19 && (f == [] || f[|f| - 1] != ' ')
  {
    var v := Truncate(DigitsOnly(raw), 16);
    assert AllDigits(v);
    GroupFourRoundTrip(v);
    GroupFourShape(v);
  }

  /** A formatted card number passes the card check exactly when the input held at
      least sixteen digits. */
  lemma CardFormatValid(raw: string)
    ensures CardNumberOk(FormatCardNumber(raw)) <==> |DigitsOnly(raw)| >= 16
  {
    var v := Truncate(DigitsOnly(raw), 16);
    assert AllDigits(v);
    GroupFourRoundTrip(v);
  }

  /** A formatted expiry passes the expiry check exactly when the input held at least
      four digits and the first two form a month. */
  lemma ExpiryFormatValid(raw: string)
    ensures var d := DigitsOnly(raw);
            ExpiryOk(FormatExpiry(raw)) <==> |d| >= 4 && MonthOk(d[0], d[1])
  {
    var d := DigitsOnly(raw);
    var v := Truncate(d, 4);
    if |v| >= 2 {
      var r := FormatExpiry(raw);
      assert r[0] == v[0] && r[1] == v[1] && r[2] == '/';
      if |v| == 4 {
        assert r[3] == v[2] && r[4] == v[3];
      }
    }
  }

  /** A sanitised CVV passes the CVV check exactly when the input held at least three
      digits. */
  lemma CvvSanitizeValid(raw: string)
    ensures CvvOk(SanitizeCvv(raw)) <==> |DigitsOnly(raw)| >= 3
  {
  }

  // ---------------------------------------------------------------------------
  // The form state

  datatype TextField = FullName | CardNumber | ExpiryDate | Cvv | DeliveryAddress
  datatype FlagField = SaveCard | SaveAddress

  datatype FormData = FormData(
    fullName: string, cardNumber: string, expiryDate: string, cvv: string, address: string,
    saveCard: bool, saveAddress: bool)

  function SetText(f: FormData, field: TextField, value: string): (r: FormData)
    ensures r.saveCard == f.saveCard && r.saveAddress == f.saveAddress
    ensures TextOf(r, field) == value
    ensures forall g :: g != field ==> TextOf(r, g) == TextOf(f, g)
  {
    match field
    case FullName => f.(fullName := value)
    case CardNumber => f.(cardNumber := value)
    case ExpiryDate => f.(expiryDate := value)
    case Cvv => f.(cvv := value)
    case DeliveryAddress => f.(address := value)
  }

  function TextOf(f: FormData, field: TextField): string {
    match field
    case FullName => f.fullName
    case CardNumber => f.cardNumber
    case ExpiryDate => f.expiryDate
    case Cvv => f.cvv
    case DeliveryAddress => f.address
  }

  function SetFlag(f: FormData, field: FlagField, value: bool): (r: FormData)
    ensures forall g :: TextOf(r, g) == TextOf(f, g)
    ensures (if field == SaveCard then r.saveCard else r.saveAddress) == value
    ensures field == SaveCard ==> r.saveAddress == f.saveAddress
    ensures field == SaveAddress ==> r.saveCard == f.saveCard
  {
    match field
    case SaveCard => f.(saveCard := value)
    case SaveAddress => f.(saveAddress := value)
  }

  const NameRequired: string := "Full name is required"
  const CardInvalid: string := "Enter a valid 16-digit card number"
  const ExpiryInvalid: string := "Valid MM/YY required"
  const CvvInvalid: string := "Invalid CVV"
  const AddressRequired: string := "Delivery address is required"

  /** Whether a text field passes its rule. */
  predicate FieldOk(f: FormData, field: TextField) {
    match field
    case FullName => Trim(f.fullName) != ""
    case CardNumber => CardNumberOk(f.cardNumber)
    case ExpiryDate => ExpiryOk(f.expiryDate)
    case Cvv => CvvOk(f.cvv)
    case DeliveryAddress => Trim(f.address) != ""
  }

  /** Every rule of `validate` holds. */
  predicate FormValid(f: FormData) {
    Trim(f.fullName) != "" && CardNumberOk(f.cardNumber) && ExpiryOk(f.expiryDate)
    && CvvOk(f.cvv) && Trim(f.address) != ""
  }

  function Message(field: TextField): (m: string)
    ensures m != ""
  {
    match field
    case FullName => NameRequired
    case CardNumber => CardInvalid
    case ExpiryDate => ExpiryInvalid
    case Cvv => CvvInvalid
    case DeliveryAddress => AddressRequired
  }

  /** Whether the error record holds exactly `field`'s message when the field fails
      its rule, and nothing for it otherwise. */
  predicate Recorded(f: FormData, errors: map<TextField, string>, field: TextField) {
    (field in errors <==> !FieldOk(f, field)) && (field in errors ==> errors[field] == Message(field))
  }

  /** The errors `validate` records: exactly the failing fields, each with its message. */
  predicate ErrorsFor(f: FormData, errors: map<TextField, string>) {
    Recorded(f, errors, FullName) && Recorded(f, errors, CardNumber) && Recorded(f, errors, ExpiryDate)
    && Recorded(f, errors, Cvv) && Recorded(f, errors, DeliveryAddress)
  }

  /** The form is valid exactly when its error record is empty. */
  lemma ValidIffNoErrors(f: FormData, errors: map<TextField, string>)
    requires ErrorsFor(f, errors)
    ensures FormValid(f) <==> errors == map[]
  {
    if errors != map[] {
      var field :| field in errors;
      assert Recorded(f, errors, field) by {
        match field
        case FullName =>
        case CardNumber =>
        case ExpiryDate =>
        case Cvv =>
        case DeliveryAddress =>
      }
    }
    if !FormValid(f) {
      if Trim(f.fullName) == "" { assert FullName in errors; }
      else if !CardNumberOk(f.cardNumber) { assert CardNumber in errors; }
      else if !ExpiryOk(f.expiryDate) { assert ExpiryDate in errors; }
      else if !CvvOk(f.cvv) { assert Cvv in errors; }
      else { assert DeliveryAddress in errors; }
    }
  }

  /** `errors[field]` gets the field's message when the field fails its rule. */
  function RecordIfFailing(f: FormData, errors: map<TextField, string>, field: TextField): map<TextField, string> {
    if FieldOk(f, field) then errors else errors[field := Message(field)]
  }

  /** The error record `validate` builds, one rule after the other. */
  function ValidationErrors(f: FormData): map<TextField, string> {
    var e1 := RecordIfFailing(f, map[], FullName);
    var e2 := RecordIfFailing(f, e1, CardNumber);
    var e3 := RecordIfFailing(f, e2, ExpiryDate);
    var e4 := RecordIfFailing(f, e3, Cvv);
    RecordIfFailing(f, e4, DeliveryAddress)
  }

  /** The record holds exactly the failing fields, each with its message, and is empty
      exactly when the form is valid. */
  lemma ValidationErrorsRecordFailures(f: FormData)
    ensures ErrorsFor(f, ValidationErrors(f))
    ensures FormValid(f) <==> ValidationErrors(f) == map[]
  {
    var e1 := RecordIfFailing(f, map[], FullName);
    var e2 := RecordIfFailing(f, e1, CardNumber);
    var e3 := RecordIfFailing(f, e2, ExpiryDate);
    var e4 := RecordIfFailing(f, e3, Cvv);
    var e5 := RecordIfFailing(f, e4, DeliveryAddress);
    RecordStep(f, map[], FullName);
    RecordStep(f, e1, CardNumber);
    RecordStep(f, e2, ExpiryDate);
    RecordStep(f, e3, Cvv);
    RecordStep(f, e4, DeliveryAddress);
    assert ErrorsFor(f, e5);
    ValidIffNoErrors(f, e5);
  }

  /** One rule records its own field and leaves what is recorded for the others. */
  lemma RecordStep(f: FormData, errors: map<TextField, string>, field: TextField)
    requires field !in errors
    ensures Recorded(f, RecordIfFailing(f, errors, field), field)
    ensures forall g :: g != field ==> Recorded(f, RecordIfFailing(f, errors, field), g) == Recorded(f, errors, g)
  {
  }

  /** The initial form (components/PaymentScreen.tsx:22-30). */
  function InitialForm(): FormData {
    FormData("Jacky Wang", "", "", "", "", true, true)
  }

  class PaymentForm {
    var formData: FormData
    var errors: map<TextField, string>
    var isProcessing: bool

    constructor ()
      ensures formData == InitialForm() && errors == map[] && !isProcessing
    {
      formData := InitialForm();
      errors := map[];
      isProcessing := false;
    }

    /** The prefill effect: a given address fills the address field. */
    method PrefillAddress(initialAddress: Option<Address>)
      modifies this`formData
      ensures initialAddress.Some? ==> formData == old(formData).(address := initialAddress.value.fullAddress)
      ensures initialAddress.None? ==> formData == old(formData)
    {
      if initialAddress.Some? {
        formData := formData.(address := initialAddress.value.fullAddress);
      }
    }

    /** One `if` of `validate`: a failing field gets its message in the record. */
    static method ApplyRule(f: FormData, errors: map<TextField, string>, field: TextField)
      returns (r: map<TextField, string>)
      ensures r == RecordIfFailing(f, errors, field)
    {
      r := errors;
      if !FieldOk(f, field) {
        r := r[field := Message(field)];
      }
    }

    /** `validate`: the error record is rebuilt rule by rule, and the result says
        whether it stayed empty. */
    method Validate() returns (ok: bool)
      modifies this`errors
      ensures errors == ValidationErrors(formData)
      ensures ok <==> errors == map[]
    {
      var f := formData;
      var newErrors: map<TextField, string> := map[];
      newErrors := ApplyRule(f, newErrors, FullName);
      newErrors := ApplyRule(f, newErrors, CardNumber);
      newErrors := ApplyRule(f, newErrors, ExpiryDate);
      newErrors := ApplyRule(f, newErrors, Cvv);
      newErrors := ApplyRule(f, newErrors, DeliveryAddress);
      errors := newErrors;
      ok := errors == map[];
    }

    /** `handlePay`: processing starts, and the success callback will be reached, only for
        a valid form (`ValidationErrors` is empty exactly then). The state is the one while
        the delay runs; the timer's reset of `isProcessing` to false is not modelled. */
    method HandlePay() returns (success: bool)
      modifies this`errors, this`isProcessing
      ensures errors == ValidationErrors(formData)
      ensures success <==> errors == map[]
      ensures isProcessing == (old(isProcessing) || success)
      ensures success ==> PayDisabled()
    {
      success := Validate();
      if success {
        isProcessing := true;
      }
    }

    /** A click on the pay button: while processing the button is disabled and the click
        changes nothing, so a payment under way is not submitted a second time. */
    method ClickPay() returns (success: bool)
      modifies this`errors, this`isProcessing
      ensures old(PayDisabled()) ==> !success && errors == old(errors) && isProcessing
      ensures !old(PayDisabled()) ==> errors == ValidationErrors(formData) && (success <==> errors == map[])
      ensures isProcessing == (old(isProcessing) || success)
    {
      if PayDisabled() {
        return false;
      }
      success := HandlePay();
    }

    /** `handleChange` on a text field: the field takes the value and a recorded error
        for it is cleared; every other field and error is unchanged. */
    method HandleChange(field: TextField, value: string)
      modifies this`formData, this`errors
      ensures formData == SetText(old(formData), field, value)
      ensures errors == if field in old(errors) && old(errors)[field] != "" then old(errors) - {field} else old(errors)
    {
      formData := SetText(formData, field, value);
      if field in errors && errors[field] != "" {
        errors := errors - {field};
      }
    }

    /** `handleChange` on one of the two checkboxes; no error is ever recorded for them. */
    method HandleFlagChange(field: FlagField, value: bool)
      modifies this`formData
      ensures formData == SetFlag(old(formData), field, value)
    {
      formData := SetFlag(formData, field, value);
    }

    /** `handleCardNumberChange`. */
    method HandleCardNumberChange(raw: string)
      modifies this`formData, this`errors
      ensures formData == old(formData).(cardNumber := FormatCardNumber(raw))
      ensures errors == if CardNumber in old(errors) && old(errors)[CardNumber] != ""
                        then old(errors) - {CardNumber} else old(errors)
    {
      var value := DigitsOnly(raw);
      if |value| > 16 {
        value := value[..16];
      }
      var formatted := GroupFour(value);
      HandleChange(CardNumber, formatted);
    }

    /** `handleExpiryChange`. */
    method HandleExpiryChange(raw: string)
      modifies this`formData, this`errors
      ensures formData == old(formData).(expiryDate := FormatExpiry(raw))
      ensures errors == if ExpiryDate in old(errors) && old(errors)[ExpiryDate] != ""
                        then old(errors) - {ExpiryDate} else old(errors)
    {
      var value := DigitsOnly(raw);
      if |value| > 4 {
        value := value[..4];
      }
      if |value| >= 2 {
        value := value[..2] + "/" + value[2..];
      }
      HandleChange(ExpiryDate, value);
    }

    /** The CVV input's change handler. */
    method HandleCvvChange(raw: string)
      modifies this`formData, this`errors
      ensures formData == old(formData).(cvv := SanitizeCvv(raw))
      ensures errors == if Cvv in old(errors) && old(errors)[Cvv] != "" then old(errors) - {Cvv} else old(errors)
    {
      HandleChange(Cvv, SanitizeCvv(raw));
    }

    /** The pay button's `disabled` attribute: processing is under way. */
    function PayDisabled(): bool
      reads this
    {
      isProcessing
    }
  }
}
