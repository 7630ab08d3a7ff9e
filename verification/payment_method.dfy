/** The payment methods dialog
    (components/shared/VendorSide/settings/paymentMethod/paymentMethod.tsx):
    the card-number, CVV and expiry formatting applied to every keystroke,
    the ordered checks before a new method is saved, deletion by id, and the
    masked number shown for each saved method. The simulated save delay is
    one atomic step and `Date.now().toString()` is a fresh-id parameter. */
module PaymentMethod {
  import opened Wrappers
  import opened JsStrings
  import Seqs

  // ---------------------------------------------------------------------
  // Card numbers
  // ---------------------------------------------------------------------

  /** `s.match(/.{1,4}/g).join(" ")` on text without line terminators, and ""
      when there is no match: groups of four with one space between. */
  function Group4(s: string): (r: string)
    decreases |s|
  {
    if |s| <= 4 then s else s[..4] + " " + Group4(s[4..])
  }

  /** Where everything sits in `Group4(s)`: a space at every fifth position,
      and elsewhere the characters of `s` in order, so every group has four
      characters but the last, which has one to four. */
  lemma {:induction false} Group4Layout(s: string)
    ensures |Group4(s)| == if s == "" then 0 else |s| + (|s| - 1) / 4
    ensures forall i :: 0 <= i < |Group4(s)| && i % 5 == 4 ==> Group4(s)[i] == ' '
    ensures forall i :: 0 <= i < |Group4(s)| && i % 5 != 4 ==>
              0 <= i - i / 5 < |s| && Group4(s)[i] == s[i - i / 5]
    decreases |s|
  {
    if |s| > 4 {
      var rest := s[4..];
      var g := Group4(rest);
      Group4Layout(rest);
      assert Group4(s) == s[..4] + " " + g;
      forall i | 0 <= i < |Group4(s)|
        ensures i % 5 == 4 ==> Group4(s)[i] == ' '
        ensures i % 5 != 4 ==> 0 <= i - i / 5 < |s| && Group4(s)[i] == s[i - i / 5]
      {
        if i >= 5 {
          assert Group4(s)[i] == g[i - 5];
          assert (i - 5) % 5 == i % 5 && (i - 5) / 5 == i / 5 - 1;
        }
      }
    }
  }

  /** Removing the spaces from `Group4(s)` gives back `s` when `s` has no
      whitespace. */
  lemma {:induction false} Group4RoundTrip(s: string)
    requires forall i :: 0 <= i < |s| ==> !IsWhitespace(s[i])
    ensures RemoveWhitespace(Group4(s)) == s
    decreases |s|
  {
    if |s| <= 4 {
      RemoveWhitespaceOfClean(s);
    } else {
      var rest := s[4..];
      Group4RoundTrip(rest);
      RemoveWhitespaceOfClean(s[..4]);
      Seqs.FilterAppend(s[..4] + " ", Group4(rest), IsNotWhitespace);
      Seqs.FilterAppend(s[..4], " ", IsNotWhitespace);
      assert Seqs.Filter(" ", IsNotWhitespace) == "";
      assert s[..4] + rest == s;
    }
  }

  /** `formatCardNumber` */
  function FormatCardNumber(value: string): (r: string)
    ensures RemoveWhitespace(r) == RemoveWhitespace(value)
  {
    Group4RoundTrip(RemoveWhitespace(value));
    Group4(RemoveWhitespace(value))
  }

  /** Formatting an already formatted number changes nothing. */
  lemma FormatCardNumberIdempotent(value: string)
    ensures FormatCardNumber(FormatCardNumber(value)) == FormatCardNumber(value)
  {
  }

  /** What the account-number input stores for a keystroke:
      `formatCardNumber(value.replace(/\D/g, "").slice(0, 16))`. */
  function AccountNumberInput(value: string): (r: string)
    ensures RemoveWhitespace(r) == Take(KeepDigits(value), 16)
    ensures r == Group4(Take(KeepDigits(value), 16))
  {
    var digits := Take(KeepDigits(value), 16);
    assert forall i :: 0 <= i < |digits| ==> !IsWhitespace(digits[i]) by {
      assert AllDigits(digits);
    }
    RemoveWhitespaceOfClean(digits);
    FormatCardNumber(digits)
  }

  /** The account-number field holds at most sixteen digits, grouped by four,
      and so at most nineteen characters. */
  predicate WellFormedAccountNumber(s: string) {
    AllDigits(RemoveWhitespace(s)) && |RemoveWhitespace(s)| <= 16 && s == Group4(RemoveWhitespace(s))
  }

  lemma AccountNumberInputWellFormed(value: string)
    ensures WellFormedAccountNumber(AccountNumberInput(value))
    ensures |AccountNumberInput(value)| <= 19
    ensures forall i :: 0 <= i < |AccountNumberInput(value)| ==>
              IsDigit(AccountNumberInput(value)[i]) || AccountNumberInput(value)[i] == ' '
  {
    var digits := Take(KeepDigits(value), 16);
    Group4Layout(digits);
    var r := AccountNumberInput(value);
    forall i | 0 <= i < |r|
      ensures IsDigit(r[i]) || r[i] == ' '
    {
      if i % 5 != 4 {
        assert r[i] == digits[i - i / 5];
      }
    }
  }

  /** A well-formed number with sixteen digits is four groups of four. */
  lemma SixteenDigitLayout(s: string)
    requires WellFormedAccountNumber(s) && |RemoveWhitespace(s)| == 16
    ensures |s| == 19 && s[4] == ' ' && s[9] == ' ' && s[14] == ' '
    ensures RemoveWhitespace(s) == s[..4] + s[5..9] + s[10..14] + s[15..]
  {
    Group4OfSixteen(RemoveWhitespace(s));
  }

  lemma Group4OfSixteen(d: string)
    requires |d| == 16
    ensures var g := Group4(d);
            |g| == 19 && g[4] == ' ' && g[9] == ' ' && g[14] == ' ' &&
            d == g[..4] + g[5..9] + g[10..14] + g[15..]
  {
    assert d[4..][..4] == d[4..8] && d[4..][4..] == d[8..];
    assert d[8..][..4] == d[8..12] && d[8..][4..] == d[12..];
    var t := d[..4] + " " + d[4..8] + " " + d[8..12] + " " + d[12..];
    assert Group4(d[12..]) == d[12..];
    assert Group4(d[8..]) == d[8..12] + " " + d[12..];
    assert Group4(d[4..]) == d[4..8] + " " + d[8..12] + " " + d[12..];
    assert Group4(d) == t;
    assert t[..4] == d[..4] && t[5..9] == d[4..8] && t[10..14] == d[8..12] && t[15..] == d[12..];
    assert d == d[..4] + d[4..8] + d[8..12] + d[12..];
  }

  /** `maskAccountNumber` */
  function MaskAccountNumber(number: string): (r: string)
    ensures 15 <= |r| <= 19
    ensures r[..15] == "\U{2022}\U{2022}\U{2022}\U{2022} \U{2022}\U{2022}\U{2022}\U{2022} \U{2022}\U{2022}\U{2022}\U{2022} "
    ensures r[15..] == TakeLast4(RemoveWhitespace(number))
  {
    "\U{2022}\U{2022}\U{2022}\U{2022} \U{2022}\U{2022}\U{2022}\U{2022} \U{2022}\U{2022}\U{2022}\U{2022} " +
    TakeLast4(RemoveWhitespace(number))
  }

  /** The mask ignores grouping: a number masks like its formatted form, and
      a sixteen-digit number shows its last four digits. */
  lemma MaskIgnoresGrouping(value: string)
    ensures MaskAccountNumber(FormatCardNumber(value)) == MaskAccountNumber(value)
  {
  }

  lemma MaskShowsLastFourDigits(s: string)
    requires WellFormedAccountNumber(s) && |RemoveWhitespace(s)| == 16
    ensures MaskAccountNumber(s)[15..] == s[15..]
  {
    SixteenDigitLayout(s);
  }

  // ---------------------------------------------------------------------
  // CVV and expiration date
  // ---------------------------------------------------------------------

  /** What the CVV input stores: `value.replace(/\D/g, "").slice(0, 3)`. */
  function CvvInput(value: string): (r: string)
    ensures AllDigits(r)
    ensures r <= KeepDigits(value)
    ensures |r| == if |KeepDigits(value)| <= 3 then |KeepDigits(value)| else 3
  {
    Take(KeepDigits(value), 3)
  }

  /** What the CVV input stores is kept as it is when fed back to the input:
      a stored CVV is a fixed point of the filter. */
  lemma CvvInputIdempotent(value: string)
    ensures CvvInput(CvvInput(value)) == CvvInput(value)
  {
    KeepDigitsOfDigits(CvvInput(value));
  }

  /** The shapes `formatExpirationDate` produces: at most one digit, or two
      digits, a '/' and up to two more digits. */
  predicate WellFormedExpiry(e: string) {
    (|e| <= 1 && AllDigits(e)) ||
    (3 <= |e| <= 5 && IsDigit(e[0]) && IsDigit(e[1]) && e[2] == '/' && AllDigits(e[3..]))
  }

  /** `formatExpirationDate` */
  function FormatExpirationDate(value: string): (r: string)
    ensures WellFormedExpiry(r)
    ensures |r| <= 5
    ensures |KeepDigits(value)| >= 2 ==>
              |r| >= 3 && r[..2] == KeepDigits(value)[..2] && r[3..] == Take(KeepDigits(value)[2..], 2)
    ensures |KeepDigits(value)| < 2 ==> r == KeepDigits(value)
  {
    var cleaned := KeepDigits(value);
    if |cleaned| >= 2 then
      var r := cleaned[..2] + "/" + Take(cleaned[2..], 2);
      assert r[3..] == Take(cleaned[2..], 2);
      r
    else cleaned
  }

  /** What the expiry input stores: `formatExpirationDate(value.slice(0, 5))`. */
  function ExpirationInput(value: string): (r: string)
    ensures WellFormedExpiry(r)
  {
    FormatExpirationDate(Take(value, 5))
  }

  /** A complete expiry that is typed again (as when another digit is added
      at the end) stays as it was. */
  lemma ExpirationInputKeepsComplete(e: string, c: char)
    requires WellFormedExpiry(e) && |e| == 5
    ensures ExpirationInput(e + [c]) == e
  {
    assert Take(e + [c], 5) == e;
    KeepDigitsOfExpiry(e);
  }

  /** The digits of "MM/YY" are "MMYY". */
  lemma KeepDigitsOfExpiry(e: string)
    requires WellFormedExpiry(e) && |e| == 5
    ensures KeepDigits(e) == e[..2] + e[3..]
  {
    var month, slash, year := e[..2], e[2..3], e[3..];
    assert e == (month + slash) + year;
    assert KeepDigits(month + slash) == month by {
      Seqs.FilterAppend(month, slash, IsDigit);
      KeepDigitsOfDigits(month);
      assert KeepDigits(slash) == [] by {
        assert slash == [e[2]] && slash[1..] == [];
      }
    }
    assert KeepDigits(year) == year by {
      KeepDigitsOfDigits(year);
    }
    Seqs.FilterAppend(month + slash, year, IsDigit);
  }

  /** Deleting the '/' of "MM/" is undone at once: the field turns "MM" back
      into "MM/", so the slash cannot be removed by itself. */
  lemma ExpirationSlashComesBack()
    ensures ExpirationInput("12") == "12/"
  {
    KeepDigitsOfDigits("12");
  }

  // ---------------------------------------------------------------------
  // The form and its checks
  // ---------------------------------------------------------------------

  datatype MethodForm = MethodForm(bank: string, accountNumber: string, cvv: string, expirationDate: string)

  const EmptyForm: MethodForm := MethodForm("", "", "", "")

  datatype FormField = Bank | AccountNumber | Cvv | ExpirationDate

  /** `handleInputChange(field, value)`: the field's formatter, then the
      field set and the others kept. */
  function ApplyInput(form: MethodForm, field: FormField, value: string): (r: MethodForm)
    ensures field == Bank ==> r == form.(bank := value)
    ensures field == AccountNumber ==> r == form.(accountNumber := AccountNumberInput(value))
    ensures field == Cvv ==> r == form.(cvv := CvvInput(value))
    ensures field == ExpirationDate ==> r == form.(expirationDate := ExpirationInput(value))
  {
    match field
    case Bank => form.(bank := value)
    case AccountNumber => form.(accountNumber := AccountNumberInput(value))
    case Cvv => form.(cvv := CvvInput(value))
    case ExpirationDate => form.(expirationDate := ExpirationInput(value))
  }

  /** What every formatter guarantees about the fields it fills. */
  predicate WellFormedForm(form: MethodForm) {
    WellFormedAccountNumber(form.accountNumber) &&
    AllDigits(form.cvv) && |form.cvv| <= 3 &&
    WellFormedExpiry(form.expirationDate)
  }

  lemma ApplyInputKeepsWellFormed(form: MethodForm, field: FormField, value: string)
    requires WellFormedForm(form)
    ensures WellFormedForm(ApplyInput(form, field, value))
  {
    if field == AccountNumber {
      AccountNumberInputWellFormed(value);
    }
  }

  lemma EmptyFormWellFormed()
    ensures WellFormedForm(EmptyForm)
  {
    assert RemoveWhitespace("") == "";
  }

  datatype MethodError = NoBank | BadAccountNumber | BadCvv | BadExpirationDate

  /** `handleSaveMethod`'s checks, in order. */
  function SaveCheck(form: MethodForm): (r: Option<MethodError>)
    ensures r == Some(NoBank) <==> form.bank == ""
    ensures r == Some(BadAccountNumber) <==>
              form.bank != "" && |RemoveWhitespace(form.accountNumber)| != 16
    ensures r == Some(BadCvv) <==>
              form.bank != "" && |RemoveWhitespace(form.accountNumber)| == 16 && |form.cvv| != 3
    ensures r == Some(BadExpirationDate) <==>
              form.bank != "" && |RemoveWhitespace(form.accountNumber)| == 16 && |form.cvv| == 3 &&
              |form.expirationDate| != 5
    ensures r == None <==>
              form.bank != "" && |RemoveWhitespace(form.accountNumber)| == 16 && |form.cvv| == 3 &&
              |form.expirationDate| == 5
  {
    if form.bank == "" then Some(NoBank)
    else if |RemoveWhitespace(form.accountNumber)| != 16 then Some(BadAccountNumber)
    else if |form.cvv| != 3 then Some(BadCvv)
    else if |form.expirationDate| != 5 then Some(BadExpirationDate)
    else None
  }

  /** A form the inputs filled and the checks accepted holds a full card:
      sixteen digits in four groups, a three-digit CVV and "MM/YY". */
  lemma AcceptedFormShape(form: MethodForm)
    requires WellFormedForm(form) && SaveCheck(form) == None
    ensures |form.accountNumber| == 19 && AllDigits(RemoveWhitespace(form.accountNumber))
    ensures AllDigits(form.cvv) && |form.cvv| == 3
    ensures |form.expirationDate| == 5 && form.expirationDate[2] == '/'
    ensures IsDigit(form.expirationDate[0]) && IsDigit(form.expirationDate[1])
    ensures IsDigit(form.expirationDate[3]) && IsDigit(form.expirationDate[4])
  {
    SixteenDigitLayout(form.accountNumber);
    var e := form.expirationDate;
    assert e[3] == e[3..][0] && e[4] == e[3..][1];
  }

  // ---------------------------------------------------------------------
  // Saved methods
  // ---------------------------------------------------------------------

  datatype SavedMethod = SavedMethod(id: string, bank: string, accountNumber: string, cvv: string, expirationDate: string)

  const InitialMethods: seq<SavedMethod> := [
    SavedMethod("1", "BDO", "1234 5678 9012 3456", "123", "12/25"),
    SavedMethod("2", "BPI", "9876 5432 1098 7654", "456", "06/26")
  ]

  function MethodId(m: SavedMethod): string {
    m.id
  }

  /** `prev.filter((method) => method.id !== id)` */
  function DeleteMethod(methods: seq<SavedMethod>, id: string): (r: seq<SavedMethod>)
    ensures |r| <= |methods|
    ensures forall i :: 0 <= i < |r| ==> r[i].id != id && r[i] in methods
    ensures forall i :: 0 <= i < |methods| && methods[i].id != id ==> methods[i] in r
  {
    Seqs.RemoveKey(methods, MethodId, id)
  }

  // ---------------------------------------------------------------------
  // The dialog
  // ---------------------------------------------------------------------

  class PaymentMethodModal {
    var paymentMethods: seq<SavedMethod>
    var isAdding: bool
    var newMethod: MethodForm
    var open: bool

    ghost predicate Valid()
      reads this
    {
      WellFormedForm(newMethod)
    }

    constructor (isOpen: bool)
      ensures Valid()
      ensures paymentMethods == InitialMethods && !isAdding && newMethod == EmptyForm && open == isOpen
    {
      paymentMethods := InitialMethods;
      isAdding := false;
      newMethod := EmptyForm;
      open := isOpen;
      EmptyFormWellFormed();
    }

    /** `handleAddNew` */
    method HandleAddNew()
      modifies this
      ensures Valid()
      ensures isAdding && newMethod == EmptyForm
      ensures paymentMethods == old(paymentMethods) && open == old(open)
    {
      isAdding := true;
      newMethod := EmptyForm;
      EmptyFormWellFormed();
    }

    /** `handleCancelAdd` */
    method HandleCancelAdd()
      modifies this
      ensures Valid()
      ensures !isAdding && newMethod == EmptyForm
      ensures paymentMethods == old(paymentMethods) && open == old(open)
    {
      isAdding := false;
      newMethod := EmptyForm;
      EmptyFormWellFormed();
    }

    /** `handleInputChange` */
    method HandleInputChange(field: FormField, value: string)
      requires Valid()
      modifies this
      ensures Valid()
      ensures newMethod == ApplyInput(old(newMethod), field, value)
      ensures paymentMethods == old(paymentMethods) && isAdding == old(isAdding) && open == old(open)
    {
      ApplyInputKeepsWellFormed(newMethod, field, value);
      newMethod := ApplyInput(newMethod, field, value);
    }

    /** `handleSaveMethod`: a failed check changes nothing; otherwise one
        method with the form's values and the given id is appended, the
        existing ones stay in order, and the form is emptied and closed. */
    method HandleSaveMethod(freshId: string) returns (error: Option<MethodError>)
      requires Valid()
      modifies this
      ensures Valid()
      ensures error == SaveCheck(old(newMethod))
      ensures error.Some? ==>
                paymentMethods == old(paymentMethods) && newMethod == old(newMethod) && isAdding == old(isAdding)
      ensures error.None? ==>
                paymentMethods == old(paymentMethods) +
                  [SavedMethod(freshId, old(newMethod).bank, old(newMethod).accountNumber,
                               old(newMethod).cvv, old(newMethod).expirationDate)] &&
                !isAdding && newMethod == EmptyForm
      ensures open == old(open)
    {
      error := SaveCheck(newMethod);
      if error.Some? {
        return;
      }
      var added := SavedMethod(freshId, newMethod.bank, newMethod.accountNumber, newMethod.cvv, newMethod.expirationDate);
      paymentMethods := paymentMethods + [added];
      isAdding := false;
      newMethod := EmptyForm;
      EmptyFormWellFormed();
    }

    /** `handleDeleteMethod` */
    method HandleDeleteMethod(id: string)
      modifies this
      ensures paymentMethods == DeleteMethod(old(paymentMethods), id)
      ensures newMethod == old(newMethod) && isAdding == old(isAdding) && open == old(open)
    {
      paymentMethods := DeleteMethod(paymentMethods, id);
    }

    /** `handleClose` */
    method HandleClose()
      modifies this
      ensures Valid()
      ensures !isAdding && newMethod == EmptyForm && !open
      ensures paymentMethods == old(paymentMethods)
    {
      isAdding := false;
      newMethod := EmptyForm;
      open := false;
      EmptyFormWellFormed();
    }
  }
}
