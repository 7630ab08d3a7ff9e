/** The payout settings dialog
    (components/shared/VendorSide/settings/payoutSettings/payoutSettings.tsx):
    saved settings, a draft copy edited field by field, and a save that only
    accepts a minimum payout between 100 and 50,000. The simulated save
    delay is one atomic step, so `isLoading` is false between steps and is
    not kept. */
module PayoutSettings {
  import opened Wrappers
  import opened JsStrings

  datatype Settings = Settings(
    autoPayoutEnabled: bool,
    payoutFrequency: string,
    minimumPayout: string,
    payoutDay: string,
    preferredMethod: string,
    platformFee: string)

  const InitialSettings: Settings := Settings(true, "weekly", "500", "friday", "BDO", "5")

  /** The text fields the dialog's controls pass to `handleInputChange`;
      `platformFee` is shown but no control edits it. */
  datatype TextField = PayoutFrequency | MinimumPayout | PayoutDay | PreferredMethod

  function TextOf(s: Settings, f: TextField): string {
    match f
    case PayoutFrequency => s.payoutFrequency
    case MinimumPayout => s.minimumPayout
    case PayoutDay => s.payoutDay
    case PreferredMethod => s.preferredMethod
  }

  /** Two settings records are equal when the switch, every editable text
      field and the fee agree. */
  lemma SettingsByFields(a: Settings, b: Settings)
    requires a.autoPayoutEnabled == b.autoPayoutEnabled && a.platformFee == b.platformFee
    requires forall f: TextField :: TextOf(a, f) == TextOf(b, f)
    ensures a == b
  {
    assert TextOf(a, PayoutFrequency) == TextOf(b, PayoutFrequency);
    assert TextOf(a, MinimumPayout) == TextOf(b, MinimumPayout);
    assert TextOf(a, PayoutDay) == TextOf(b, PayoutDay);
    assert TextOf(a, PreferredMethod) == TextOf(b, PreferredMethod);
  }

  /** A `handleInputChange(field, value)` call: the switch passes a boolean,
      every other control a string. */
  datatype SettingsEdit = SetAutoPayout(enabled: bool) | SetText(field: TextField, text: string)

  /** `{ ...prev, [field]: value }`: the named field takes the value and every
      other field keeps its old one; the fee is never edited. */
  function ApplyEdit(s: Settings, e: SettingsEdit): (r: Settings)
    ensures r.platformFee == s.platformFee
    ensures e.SetAutoPayout? ==>
              r.autoPayoutEnabled == e.enabled && forall f: TextField :: TextOf(r, f) == TextOf(s, f)
    ensures e.SetText? ==>
              r.autoPayoutEnabled == s.autoPayoutEnabled && TextOf(r, e.field) == e.text &&
              forall f: TextField :: f != e.field ==> TextOf(r, f) == TextOf(s, f)
  {
    match e
    case SetAutoPayout(enabled) => s.(autoPayoutEnabled := enabled)
    case SetText(PayoutFrequency, t) => s.(payoutFrequency := t)
    case SetText(MinimumPayout, t) => s.(minimumPayout := t)
    case SetText(PayoutDay, t) => s.(payoutDay := t)
    case SetText(PreferredMethod, t) => s.(preferredMethod := t)
  }

  /** Writing a field back with the value it already holds changes nothing. */
  lemma ApplyEditOfSameValue(s: Settings, f: TextField)
    ensures ApplyEdit(s, SetText(f, TextOf(s, f))) == s
  {
    SettingsByFields(ApplyEdit(s, SetText(f, TextOf(s, f))), s);
  }

  // ---------------------------------------------------------------------
  // formatCurrency
  // ---------------------------------------------------------------------

  /** `formatCurrency`: `parseFloat` of the text with everything but digits
      and '.' removed, spelled back with `toString`, or "0" when that is NaN. */
  function FormatCurrency(value: string): (r: string)
    ensures r != "" && AllDigitsOrDots(r) && Occurrences(r, '.') <= 1
    ensures ParseFloat(KeepDigitsAndDots(value)).None? ==> r == "0"
  {
    match ScanDecimal(KeepDigitsAndDots(value))
    case None => "0"
    case Some(d) => DecimalToString(d.intDigits, d.fracDigits)
  }

  /** A scan of text made of digits and dots reads no sign. */
  lemma ScanOfUnsignedIsPositive(s: string)
    requires AllDigitsOrDots(s)
    ensures ScanDecimal(s).Some? ==> !ScanDecimal(s).value.negative
  {
    if |s| > 0 {
      assert TrimStart(s) == s;
    }
  }

  /** What `formatCurrency` stores parses back to the number it read from
      the input, or to 0 when it read none. */
  lemma FormatCurrencyKeepsValue(value: string)
    ensures ParseFloat(FormatCurrency(value)) == Some(ParseFloat(KeepDigitsAndDots(value)).GetOr(0.0))
  {
    var cleaned := KeepDigitsAndDots(value);
    if ScanDecimal(cleaned).None? {
      ParseFloatOfZero();
    } else {
      var d := ScanDecimal(cleaned).value;
      assert ParseFloat(cleaned) == Some(DecimalValue(d.intDigits, d.fracDigits)) by {
        ScanOfUnsignedIsPositive(cleaned);
      }
      assert FormatCurrency(value) == DecimalToString(d.intDigits, d.fracDigits);
      ParseFloatOfDecimalToString(d.intDigits, d.fracDigits);
    }
  }

  lemma ParseFloatOfZero()
    ensures ParseFloat("0") == Some(0.0)
  {
    var z := "0";
    assert DigitsValue(z) == 0 by {
      assert z[..0] == "";
    }
    ParseFloatOfDigits(z);
    assert ParseFloat(z) == Some(DigitsValue(z) as real);
  }

  // ---------------------------------------------------------------------
  // Saving
  // ---------------------------------------------------------------------

  datatype SaveError = BelowMinimumPayout | AboveMaximumPayout

  const LowestMinimumPayout: real := 100.0
  const HighestMinimumPayout: real := 50000.0

  /** `handleSave`'s checks on the draft's minimum payout, in order. */
  function CheckMinimumPayout(text: string): (r: Option<SaveError>)
    ensures r == Some(BelowMinimumPayout) <==>
              ParseFloat(text).None? || ParseFloat(text).value < LowestMinimumPayout
    ensures r == Some(AboveMaximumPayout) <==>
              ParseFloat(text).Some? && ParseFloat(text).value > HighestMinimumPayout
    ensures r == None <==>
              ParseFloat(text).Some? &&
              LowestMinimumPayout <= ParseFloat(text).value <= HighestMinimumPayout
  {
    var minPayout := ParseFloat(text);
    if minPayout.None? || minPayout.value < LowestMinimumPayout then Some(BelowMinimumPayout)
    else if minPayout.value > HighestMinimumPayout then Some(AboveMaximumPayout)
    else None
  }

  /** A minimum payout typed into the field passes the save check exactly when
      the number read from the typed text (0 when none) is in range. */
  lemma TypedMinimumPayoutCheck(value: string)
    ensures CheckMinimumPayout(FormatCurrency(value)) == None <==>
            LowestMinimumPayout <= ParseFloat(KeepDigitsAndDots(value)).GetOr(0.0) <= HighestMinimumPayout
  {
    FormatCurrencyKeepsValue(value);
  }

  /** The initial settings pass the save check. */
  lemma InitialSettingsSave()
    ensures CheckMinimumPayout(InitialSettings.minimumPayout) == None
  {
    var t := InitialSettings.minimumPayout;
    assert DigitsValue(t) == 500 by {
      assert t[..2] == "50" && t[..2][..1] == "5" && t[..2][..1][..0] == "";
    }
    ParseFloatOfDigits(t);
  }

  // ---------------------------------------------------------------------
  // The fee example
  // ---------------------------------------------------------------------

  /** The example line: the fee on a 1,000 payout at `platformFee` percent and
      what is left; NaN (None) when the fee text does not parse. */
  function FeeExample(platformFee: string): (r: Option<(real, real)>)
    ensures r.Some? <==> ParseFloat(platformFee).Some?
    ensures r.Some? ==> r.value.0 == 10.0 * ParseFloat(platformFee).value
    ensures r.Some? ==> r.value.0 + r.value.1 == 1000.0
  {
    match ParseFloat(platformFee)
    case None => None
    case Some(p) => Some((1000.0 * p / 100.0, 1000.0 - 1000.0 * p / 100.0))
  }

  /** At the initial 5% the example shows a fee of 50 and 950 received. */
  lemma InitialFeeExample()
    ensures FeeExample(InitialSettings.platformFee) == Some((50.0, 950.0))
  {
    var t := InitialSettings.platformFee;
    assert DigitsValue(t) == 5 by {
      assert t[..0] == "";
    }
    ParseFloatOfDigits(t);
  }

  // ---------------------------------------------------------------------
  // The dialog
  // ---------------------------------------------------------------------

  class PayoutSettingsModal {
    var settings: Settings
    var editedSettings: Settings
    var isEditing: bool

    /** Outside editing the draft mirrors the saved settings. */
    ghost predicate Valid()
      reads this
    {
      !isEditing ==> editedSettings == settings
    }

    constructor ()
      ensures Valid()
      ensures settings == InitialSettings && editedSettings == InitialSettings && !isEditing
    {
      settings := InitialSettings;
      editedSettings := InitialSettings;
      isEditing := false;
    }

    /** What the switch and the read-only texts show. */
    function Shown(): (r: Settings)
      reads this
      ensures Valid() ==> r == editedSettings
    {
      if isEditing then editedSettings else settings
    }

    /** `handleEdit` */
    method HandleEdit()
      modifies this
      ensures Valid()
      ensures isEditing && editedSettings == old(settings) && settings == old(settings)
    {
      isEditing := true;
      editedSettings := settings;
    }

    /** `handleCancel`: the draft is thrown away. */
    method HandleCancel()
      modifies this
      ensures Valid()
      ensures !isEditing && editedSettings == old(settings) && settings == old(settings)
    {
      isEditing := false;
      editedSettings := settings;
    }

    /** `handleInputChange`; its controls exist only while editing. */
    method HandleInputChange(e: SettingsEdit)
      requires Valid() && isEditing
      modifies this
      ensures Valid()
      ensures editedSettings == ApplyEdit(old(editedSettings), e)
      ensures settings == old(settings) && isEditing
    {
      editedSettings := ApplyEdit(editedSettings, e);
    }

    /** The minimum-payout input's `onChange`. */
    method HandleMinimumPayoutInput(value: string)
      requires Valid() && isEditing
      modifies this
      ensures Valid()
      ensures editedSettings == old(editedSettings).(minimumPayout := FormatCurrency(value))
      ensures settings == old(settings) && isEditing
    {
      HandleInputChange(SetText(MinimumPayout, FormatCurrency(value)));
    }

    /** `handleSave`: a rejected draft changes nothing; an accepted one becomes
        the saved settings and editing ends. */
    method HandleSave() returns (error: Option<SaveError>)
      requires Valid()
      modifies this
      ensures Valid()
      ensures error == CheckMinimumPayout(old(editedSettings).minimumPayout)
      ensures error.Some? ==>
                settings == old(settings) && editedSettings == old(editedSettings) && isEditing == old(isEditing)
      ensures error.None? ==>
                settings == old(editedSettings) && editedSettings == old(editedSettings) && !isEditing
    {
      error := CheckMinimumPayout(editedSettings.minimumPayout);
      if error.Some? {
        return;
      }
      settings := editedSettings;
      isEditing := false;
    }
  }
}
