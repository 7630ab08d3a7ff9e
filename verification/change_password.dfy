/** The change-password dialog
    (components/shared/VendorSide/settings/changePassword/changePassword.tsx):
    three password fields checked against a fixed current password in a
    fixed order. The simulated server delay is one atomic step, so the
    loading flag is false again at the end of every submit. */
module ChangePassword {
  import opened Wrappers

  /** The password every submit is checked against. */
  const CurrentPassword: string := "merkago123"

  /** The least number of UTF-16 code units a new password may have. */
  const MinimumLength: nat := 6

  /** `s.length`: JavaScript counts UTF-16 code units, so a character
      outside the Basic Multilingual Plane counts twice. */
  function Utf16Length(s: string): (n: nat)
    ensures |s| <= n <= 2 * |s|
  {
    if s == [] then 0
    else (if s[0] as int > 0xFFFF then 2 else 1) + Utf16Length(s[1..])
  }

  datatype PasswordError = IncorrectCurrent | TooShort | Mismatch | SameAsCurrent

  /** The error toast of each failed check. */
  function ErrorMessage(e: PasswordError): string {
    match e
    case IncorrectCurrent => "Current password is incorrect"
    case TooShort => "New password must be at least 6 characters long"
    case Mismatch => "New passwords do not match"
    case SameAsCurrent => "New password must be different from current password"
  }

  /** `handleSubmit`'s checks, in order; None is a successful change. */
  function CheckChange(current: string, newPassword: string, confirm: string): (r: Option<PasswordError>)
    ensures r == Some(IncorrectCurrent) <==> current != CurrentPassword
    ensures r == Some(TooShort) <==>
              current == CurrentPassword && Utf16Length(newPassword) < MinimumLength
    ensures r == Some(Mismatch) <==>
              current == CurrentPassword && Utf16Length(newPassword) >= MinimumLength &&
              newPassword != confirm
    ensures r == Some(SameAsCurrent) <==>
              current == CurrentPassword && Utf16Length(newPassword) >= MinimumLength &&
              newPassword == confirm && newPassword == current
    ensures r == None <==>
              current == CurrentPassword && Utf16Length(newPassword) >= MinimumLength &&
              newPassword == confirm && newPassword != current
  {
    if current != CurrentPassword then Some(IncorrectCurrent)
    else if Utf16Length(newPassword) < MinimumLength then Some(TooShort)
    else if newPassword != confirm then Some(Mismatch)
    else if current == newPassword then Some(SameAsCurrent)
    else None
  }

  /** An accepted change was confirmed, is at least six UTF-16 code units
      long (so at least three characters) and is never the fixed password
      itself. */
  lemma AcceptedPassword(current: string, newPassword: string, confirm: string)
    requires CheckChange(current, newPassword, confirm) == None
    ensures current == CurrentPassword
    ensures newPassword == confirm && newPassword != CurrentPassword
    ensures Utf16Length(newPassword) >= MinimumLength && |newPassword| >= 3
  {
  }

  /** Typing the fixed password as the new one is refused, whatever is
      typed elsewhere: the first check or the last one fires. */
  lemma CurrentPasswordNeverAccepted(current: string, confirm: string)
    ensures CheckChange(current, CurrentPassword, confirm).Some?
  {
  }

  /** Text without characters beyond the Basic Multilingual Plane (the
      fixed password, for one) has as many UTF-16 code units as
      characters. */
  lemma {:induction false} Utf16LengthOfBmp(s: string)
    requires forall i :: 0 <= i < |s| ==> s[i] as int <= 0xFFFF
    ensures Utf16Length(s) == |s|
    decreases |s|
  {
    if s != [] {
      Utf16LengthOfBmp(s[1..]);
    }
  }

  /** The inputs; each is disabled while loading. */
  datatype PasswordField = Current | New | Confirm

  class ChangePasswordModal {
    var currentPassword: string
    var newPassword: string
    var confirmPassword: string
    var isLoading: bool
    /** The `open` the parent controls; `onOpenChange(false)` clears it. */
    var open: bool

    constructor (isOpen: bool)
      ensures currentPassword == "" && newPassword == "" && confirmPassword == ""
      ensures !isLoading && open == isOpen
    {
      currentPassword := "";
      newPassword := "";
      confirmPassword := "";
      isLoading := false;
      open := isOpen;
    }

    /** An input's `onChange`. */
    method HandleFieldChange(field: PasswordField, value: string)
      requires !isLoading
      modifies this
      ensures field == Current ==> currentPassword == value
      ensures field != Current ==> currentPassword == old(currentPassword)
      ensures field == New ==> newPassword == value
      ensures field != New ==> newPassword == old(newPassword)
      ensures field == Confirm ==> confirmPassword == value
      ensures field != Confirm ==> confirmPassword == old(confirmPassword)
      ensures isLoading == old(isLoading) && open == old(open)
    {
      match field
      case Current => currentPassword := value;
      case New => newPassword := value;
      case Confirm => confirmPassword := value;
    }

    /** `handleSubmit`: a failed check leaves every field as typed and the
        dialog open; a success clears the three fields and closes it. The
        three inputs are `required`, so the form submits only when none of
        them is empty. */
    method HandleSubmit() returns (error: Option<PasswordError>)
      requires !isLoading
      requires currentPassword != "" && newPassword != "" && confirmPassword != ""
      modifies this
      ensures error == CheckChange(old(currentPassword), old(newPassword), old(confirmPassword))
      ensures !isLoading
      ensures error.Some? ==>
                currentPassword == old(currentPassword) && newPassword == old(newPassword) &&
                confirmPassword == old(confirmPassword) && open == old(open)
      ensures error.None? ==>
                currentPassword == "" && newPassword == "" && confirmPassword == "" && !open
    {
      isLoading := true;
      error := CheckChange(currentPassword, newPassword, confirmPassword);
      if error.None? {
        currentPassword := "";
        newPassword := "";
        confirmPassword := "";
        open := false;
      }
      isLoading := false;
    }

    /** `handleClose`: Cancel and the dialog's own close both clear the
        three fields and close it. */
    method HandleClose()
      modifies this
      ensures currentPassword == "" && newPassword == "" && confirmPassword == ""
      ensures !open && isLoading == old(isLoading)
    {
      currentPassword := "";
      newPassword := "";
      confirmPassword := "";
      open := false;
    }
  }
}
