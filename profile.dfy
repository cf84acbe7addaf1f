/**
 * The password change form of the user profile modal: the length and match
 * checks, the save call, the message and its colour.
 */
module Profile {
  import opened Wrappers
  import opened JsText

  datatype PasswordError = TooShort | Mismatch

  function PasswordErrorText(e: PasswordError): string {
    match e
    case TooShort => "Password must be at least 6 characters"
    case Mismatch => "Passwords do not match"
  }

  /** The checks `handleSubmit` runs, length first; `password.length` counts UTF-16 code units. */
  function PasswordCheck(password: string, confirm: string): (r: Option<PasswordError>)
    ensures r == Some(TooShort) <==> CodeUnits(password) < 6
    ensures r == Some(Mismatch) <==> CodeUnits(password) >= 6 && password != confirm
    ensures r.None? <==> CodeUnits(password) >= 6 && password == confirm
  {
    if CodeUnits(password) < 6 then Some(TooShort)
    else if password != confirm then Some(Mismatch)
    else None
  }

  /** Six characters always pass the length check; three emoji do too, as each takes two code units. */
  lemma LengthCheckCountsCodeUnits(password: string)
    ensures |password| >= 6 ==> PasswordCheck(password, password).None?
    ensures PasswordCheck("\U{1F600}\U{1F600}\U{1F600}", "\U{1F600}\U{1F600}\U{1F600}").None?
  {
    var e := "\U{1F600}\U{1F600}\U{1F600}";
    assert CodeUnits(e[2..]) == 2;
    assert e[2..] == e[1..][1..];
  }

  const Updated := "Password updated successfully (mock)"
  const UpdateFailed := "Failed to update password. Please try again."

  /** The colour of the message line: green exactly when the message mentions "successfully". */
  function MessageColor(message: string): string {
    if Contains(message, "successfully") then "text-green-600" else "text-red-600"
  }

  /** A text without the character `c` contains no text that has one. */
  lemma MissingCharNotContained(s: string, sub: string, c: char)
    requires c in sub && c !in s
    ensures !Contains(s, sub)
  {
    ContainsAt(s, sub);
  }

  lemma OccursContains(s: string, sub: string, i: nat)
    requires OccursAt(s, sub, i)
    ensures Contains(s, sub)
  {
    ContainsAt(s, sub);
  }

  /** The success message is green: "successfully" occurs in it from position 17. */
  lemma UpdatedIsGreen()
    ensures MessageColor(Updated) == "text-green-600"
  {
    assert Updated[17..29] == "successfully";
    OccursContains(Updated, "successfully", 17);
  }

  /** The failure message is red: it has no `c`. */
  lemma FailureIsRed()
    ensures MessageColor(UpdateFailed) == "text-red-600"
  {
    MissingCharNotContained(UpdateFailed, "successfully", 'c');
  }

  /** The check messages are red: neither has a `y`. */
  lemma CheckErrorsAreRed(e: PasswordError)
    ensures MessageColor(PasswordErrorText(e)) == "text-red-600"
  {
    match e
    case TooShort =>
      MissingCharNotContained(PasswordErrorText(TooShort), "successfully", 'y');
    case Mismatch =>
      MissingCharNotContained(PasswordErrorText(Mismatch), "successfully", 'y');
  }

  class PasswordForm {
    var password: string
    var confirm: string
    var error: string
    var loading: bool
    /** The arguments of every `onSave` call, in order. */
    var saved: seq<string>
    /** Whether `onClose` has been scheduled. */
    var closing: bool

    constructor()
      ensures password == "" && confirm == "" && error == "" && !loading && saved == [] && !closing
    {
      password := "";
      confirm := "";
      error := "";
      loading := false;
      saved := [];
      closing := false;
    }

    /**
     * `handleSubmit`: a failed check only sets its message. Otherwise
     * `onSave` gets exactly the new password and the success message shows,
     * unless `onSave` throws (`saveThrows`), which replaces it with the
     * failure message. Loading ends false.
     */
    method HandleSubmit(saveThrows: bool)
      modifies this`error, this`loading, this`saved, this`closing
      ensures var check := PasswordCheck(password, confirm);
        (check.Some? ==>
          (error == PasswordErrorText(check.value) && saved == old(saved)
          && loading == old(loading) && closing == old(closing)))
        && (check.None? ==>
          (saved == old(saved) + [password] && !loading
          && error == (if saveThrows then UpdateFailed else Updated)
          && closing == (old(closing) || !saveThrows)))
    {
      if CodeUnits(password) < 6 {
        error := PasswordErrorText(TooShort);
        return;
      }
      if password != confirm {
        error := PasswordErrorText(Mismatch);
        return;
      }
      error := "";
      loading := true;
      error := Updated;
      saved := saved + [password];
      if saveThrows {
        error := UpdateFailed;
      } else {
        closing := true;
      }
      loading := false;
    }

    method SetPassword(value: string)
      modifies this`password
      ensures password == value
    {
      password := value;
    }

    method SetConfirm(value: string)
      modifies this`confirm
      ensures confirm == value
    {
      confirm := value;
    }
  }
}
