/** The payout request dialog
    (components/shared/VendorSide/settings/requestPayout/requestPayout.tsx):
    the typed amount, its 5% platform fee and net payout, the checks a
    request must pass, and the two-step request (validate and start loading,
    then finish after the simulated call). Amounts are exact reals. */
module RequestPayout {
  import opened Wrappers
  import opened JsStrings

  const PlatformFeePercent: real := 5.0
  const MinimumPayout: real := 500.0

  // ---------------------------------------------------------------------
  // The amount field
  // ---------------------------------------------------------------------

  /** What the amount field can hold: digits and at most one '.'. */
  predicate WellFormedAmount(s: string) {
    AllDigitsOrDots(s) && Occurrences(s, '.') <= 1
  }

  /** `parseFloat(amount) || 0`: text that is not a number counts as 0. */
  function ParsedAmount(amount: string): (r: real)
    ensures ParseFloat(amount).None? ==> r == 0.0
    ensures ParseFloat(amount).Some? ==> r == ParseFloat(amount).value
  {
    ParseFloat(amount).GetOr(0.0)
  }

  /** `(parsedAmount * PLATFORM_FEE_PERCENT) / 100` */
  function PlatformFee(parsedAmount: real): real {
    parsedAmount * PlatformFeePercent / 100.0
  }

  /** `parsedAmount - platformFee`: the vendor receives 95% of the request,
      and fee and net add back up to the request. */
  function NetAmount(parsedAmount: real): (r: real)
    ensures r == parsedAmount * 95.0 / 100.0
    ensures PlatformFee(parsedAmount) + r == parsedAmount
    ensures parsedAmount >= 0.0 ==> 0.0 <= PlatformFee(parsedAmount) <= r <= parsedAmount
  {
    parsedAmount - PlatformFee(parsedAmount)
  }

  /** `handleAmountChange`: strip everything but digits and '.', and ignore
      the keystroke when the result would have more than one '.'. */
  function AmountAfterEdit(current: string, value: string): (r: string)
    ensures Occurrences(KeepDigitsAndDots(value), '.') <= 1 ==> r == KeepDigitsAndDots(value)
    ensures Occurrences(KeepDigitsAndDots(value), '.') > 1 ==> r == current
    ensures WellFormedAmount(current) ==> WellFormedAmount(r)
  {
    var cleaned := KeepDigitsAndDots(value);
    SplitLength(cleaned, '.');
    if |Split(cleaned, '.')| > 2 then current else cleaned
  }

  /** Typing a value that is already well formed stores it unchanged. */
  lemma AmountEditKeepsWellFormed(current: string, value: string)
    requires WellFormedAmount(value)
    ensures AmountAfterEdit(current, value) == value
  {
    KeepDigitsAndDotsOfClean(value);
  }

  /** Whatever the field holds, the parsed amount is never negative. */
  lemma WellFormedAmountIsNonNegative(s: string)
    requires WellFormedAmount(s)
    ensures ParsedAmount(s) >= 0.0
  {
    ParseFloatOfUnsigned(s);
  }

  /** The "MAX" text: the balance spelled by `toString` is a well-formed
      amount that parses back to the balance. */
  lemma MaxAmountParsesBack(ip: string, fp: string)
    requires AllDigits(ip) && AllDigits(fp)
    ensures WellFormedAmount(DecimalToString(ip, fp))
    ensures ParsedAmount(DecimalToString(ip, fp)) == DecimalValue(ip, fp)
  {
    ParseFloatOfDecimalToString(ip, fp);
  }

  // ---------------------------------------------------------------------
  // Validation and what the dialog shows
  // ---------------------------------------------------------------------

  datatype PayoutError = InvalidAmount | BelowMinimum | InsufficientBalance | NoPaymentMethod

  /** `validatePayout`: the first failing check, in the source's order. */
  function ValidatePayout(parsedAmount: real, availableBalance: real, account: string): (r: Option<PayoutError>)
    ensures r == Some(InvalidAmount) <==> parsedAmount <= 0.0
    ensures r == Some(BelowMinimum) <==> 0.0 < parsedAmount < MinimumPayout
    ensures r == Some(InsufficientBalance) <==>
              MinimumPayout <= parsedAmount && parsedAmount > availableBalance
    ensures r == Some(NoPaymentMethod) <==>
              MinimumPayout <= parsedAmount <= availableBalance && account == ""
    ensures r == None <==> MinimumPayout <= parsedAmount <= availableBalance && account != ""
  {
    if parsedAmount == 0.0 || parsedAmount <= 0.0 then Some(InvalidAmount)
    else if parsedAmount < MinimumPayout then Some(BelowMinimum)
    else if parsedAmount > availableBalance then Some(InsufficientBalance)
    else if account == "" then Some(NoPaymentMethod)
    else None
  }

  /** The Request Payout button's `disabled` expression. */
  predicate SubmitDisabled(isLoading: bool, parsedAmount: real, availableBalance: real) {
    isLoading || parsedAmount < MinimumPayout || parsedAmount > availableBalance
  }

  /** The "Below minimum amount" notice. */
  predicate ShowBelowMinimum(parsedAmount: real) {
    parsedAmount > 0.0 && parsedAmount < MinimumPayout
  }

  /** The "Payout ready to process" notice. */
  predicate ShowReady(parsedAmount: real, availableBalance: real) {
    parsedAmount >= MinimumPayout && parsedAmount <= availableBalance
  }

  /** The two notices are never shown together; the ready notice is shown
      exactly when the idle dialog enables the button, and then the request
      passes validation for any chosen account. */
  lemma NoticesAgreeWithButton(parsedAmount: real, availableBalance: real, account: string)
    ensures !(ShowBelowMinimum(parsedAmount) && ShowReady(parsedAmount, availableBalance))
    ensures ShowReady(parsedAmount, availableBalance) <==>
            !SubmitDisabled(false, parsedAmount, availableBalance)
    ensures account != "" ==>
            (!SubmitDisabled(false, parsedAmount, availableBalance) <==>
             ValidatePayout(parsedAmount, availableBalance, account) == None)
  {
  }

  /** The two accounts the dialog offers. */
  predicate IsOfferedAccount(account: string) {
    account == "BDO" || account == "BPI"
  }

  /** The label passed to `onPayoutSuccess` for the selected account. */
  function MethodDisplay(account: string): (r: string)
    ensures r == "BDO (\U{2022}\U{2022}\U{2022}\U{2022} 3456)" <==> account == "BDO"
  {
    if account == "BDO" then "BDO (\U{2022}\U{2022}\U{2022}\U{2022} 3456)"
    else "BPI (\U{2022}\U{2022}\U{2022}\U{2022} 7654)"
  }

  // ---------------------------------------------------------------------
  // The dialog
  // ---------------------------------------------------------------------

  /** The amount and account the suspended `handleRequestPayout` captured. */
  datatype PendingRequest = PendingRequest(parsedAmount: real, account: string)

  /** What `onPayoutSuccess` receives, with the net amount the success
      message reports. */
  datatype PayoutReport = PayoutReport(amount: real, paymentMethod: string, netAmount: real)

  class RequestPayoutModal {
    /** `availableBalance`, given as the decimal digits `toString` spells it
        with (before and after the point). */
    const balanceIntDigits: string
    const balanceFracDigits: string
    const availableBalance: real

    var amount: string
    var selectedAccount: string
    var isLoading: bool
    var open: bool
    var pending: Option<PendingRequest>

    ghost predicate Valid()
      reads this
    {
      AllDigits(balanceIntDigits) && AllDigits(balanceFracDigits) &&
      availableBalance == DecimalValue(balanceIntDigits, balanceFracDigits) &&
      WellFormedAmount(amount) && IsOfferedAccount(selectedAccount) &&
      (isLoading <==> pending.Some?) &&
      (pending.Some? ==>
         ValidatePayout(pending.value.parsedAmount, availableBalance, pending.value.account) == None)
    }

    constructor (intDigits: string, fracDigits: string, isOpen: bool)
      requires AllDigits(intDigits) && AllDigits(fracDigits)
      ensures Valid()
      ensures availableBalance == DecimalValue(intDigits, fracDigits)
      ensures amount == "" && selectedAccount == "BDO" && !isLoading && open == isOpen
    {
      balanceIntDigits := intDigits;
      balanceFracDigits := fracDigits;
      availableBalance := DecimalValue(intDigits, fracDigits);
      amount := "";
      selectedAccount := "BDO";
      isLoading := false;
      open := isOpen;
      pending := None;
    }

    function Parsed(): (r: real)
      reads this
    {
      ParsedAmount(amount)
    }

    /** `handleAmountChange`; the amount input is disabled while loading. */
    method HandleAmountChange(value: string)
      requires Valid() && !isLoading
      modifies this
      ensures Valid()
      ensures amount == AmountAfterEdit(old(amount), value)
      ensures selectedAccount == old(selectedAccount) && isLoading == old(isLoading)
      ensures open == old(open) && pending == old(pending)
    {
      var cleaned := KeepDigitsAndDots(value);
      var parts := Split(cleaned, '.');
      SplitLength(cleaned, '.');
      if |parts| > 2 {
        return;
      }
      amount := cleaned;
    }

    /** `handleMaxAmount`: the field gets `availableBalance.toString()`, which
        parses back to the balance itself. The MAX button is disabled while
        loading. */
    method HandleMaxAmount()
      requires Valid() && !isLoading
      modifies this
      ensures Valid()
      ensures amount == DecimalToString(balanceIntDigits, balanceFracDigits)
      ensures WellFormedAmount(amount) && ParsedAmount(amount) == availableBalance
      ensures selectedAccount == old(selectedAccount) && isLoading == old(isLoading)
      ensures open == old(open) && pending == old(pending)
    {
      MaxAmountParsesBack(balanceIntDigits, balanceFracDigits);
      amount := DecimalToString(balanceIntDigits, balanceFracDigits);
    }

    /** The account Select, which offers BDO and BPI only and is disabled
        while loading. */
    method SelectAccount(account: string)
      requires Valid() && !isLoading && IsOfferedAccount(account)
      modifies this
      ensures Valid()
      ensures selectedAccount == account
      ensures amount == old(amount) && isLoading == old(isLoading)
      ensures open == old(open) && pending == old(pending)
    {
      selectedAccount := account;
    }

    /** `handleRequestPayout` up to the simulated call: a failed check is
        reported and changes nothing; a passing request starts loading. The
        button is disabled while loading, so no request is already pending. */
    method HandleRequestPayout() returns (error: Option<PayoutError>)
      requires Valid() && !isLoading
      modifies this
      ensures Valid()
      ensures error == ValidatePayout(ParsedAmount(old(amount)), availableBalance, old(selectedAccount))
      ensures error.Some? ==> !isLoading && pending == None
      ensures error.None? ==>
                isLoading && pending == Some(PendingRequest(ParsedAmount(old(amount)), old(selectedAccount)))
      ensures amount == old(amount) && selectedAccount == old(selectedAccount) && open == old(open)
    {
      var parsed := ParsedAmount(amount);
      error := ValidatePayout(parsed, availableBalance, selectedAccount);
      if error.None? {
        isLoading := true;
        pending := Some(PendingRequest(parsed, selectedAccount));
      }
    }

    /** The rest of `handleRequestPayout` once the simulated call returns:
        loading stops, the captured request is reported, the form is reset and
        the dialog closes. The reported amount always passed validation. */
    method CompletePayout() returns (report: PayoutReport)
      requires Valid() && isLoading
      modifies this
      ensures Valid()
      ensures old(pending).Some?
      ensures report == PayoutReport(old(pending).value.parsedAmount,
                                     MethodDisplay(old(pending).value.account),
                                     NetAmount(old(pending).value.parsedAmount))
      ensures MinimumPayout <= report.amount <= availableBalance
      ensures report.netAmount == report.amount * 95.0 / 100.0
      ensures !isLoading && pending == None
      ensures amount == "" && selectedAccount == "BDO" && !open
    {
      var request := pending.value;
      isLoading := false;
      pending := None;
      report := PayoutReport(request.parsedAmount, MethodDisplay(request.account), NetAmount(request.parsedAmount));
      amount := "";
      selectedAccount := "BDO";
      open := false;
    }

    /** `handleClose`: ignored while a request is loading; otherwise the form
        is reset and the dialog closes. */
    method HandleClose()
      requires Valid()
      modifies this
      ensures Valid()
      ensures old(isLoading) ==>
                amount == old(amount) && selectedAccount == old(selectedAccount) && open == old(open)
      ensures !old(isLoading) ==> amount == "" && selectedAccount == "BDO" && !open
      ensures isLoading == old(isLoading) && pending == old(pending)
    {
      if !isLoading {
        amount := "";
        selectedAccount := "BDO";
        open := false;
      }
    }
  }
}
