/**
 * The reset-password page (src/app/auth/reset-password/page.tsx): the
 * ordered checks before the password update, the state they leave behind,
 * and which of the three screens renders.
 */
module ResetPassword {
  import opened Wrappers

  const MinPasswordLength: nat := 6
  const MismatchError: string := "Passwords do not match"
  const TooShortError: string := "Password must be at least 6 characters long"
  const UnexpectedError: string := "An unexpected error occurred"

  datatype Check = PasswordsDiffer | TooShort | Accepted

  /** The checks of `handleSubmit`, in order: the passwords must match, then be at least 6 long. */
  function CheckPasswords(password: string, confirmPassword: string): (c: Check)
    ensures c == PasswordsDiffer <==> password != confirmPassword
    ensures c == TooShort <==> password == confirmPassword && |password| < MinPasswordLength
    ensures c == Accepted <==> password == confirmPassword && |password| >= MinPasswordLength
  {
    if password != confirmPassword then PasswordsDiffer
    else if |password| < MinPasswordLength then TooShort
    else Accepted
  }

  /** The message a failed check shows. */
  function CheckMessage(c: Check): (message: string)
    requires c != Accepted
    ensures message == MismatchError <==> c == PasswordsDiffer
    ensures c == TooShort ==> message == TooShortError
  {
    if c == PasswordsDiffer then MismatchError else TooShortError
  }

  /** How the hosted password update ended: success, an error result, or a thrown error (whose message may be missing). */
  datatype UpdateOutcome = Updated | Rejected(message: string) | Threw(thrownMessage: Option<string>)

  /** `err.message || "An unexpected error occurred"`. */
  function ThrownMessage(message: Option<string>): (text: string)
    ensures text != ""
    ensures message.Some? && message.value != "" ==> text == message.value
    ensures message.None? || message.value == "" ==> text == UnexpectedError
  {
    if message.Some? && message.value != "" then message.value else UnexpectedError
  }

  datatype Screen = SuccessScreen | InvalidLinkScreen | FormScreen

  /** The render order: success first, then an invalid session, then the form. */
  function ScreenFor(isSuccess: bool, isValidSession: bool): (s: Screen)
    ensures s == SuccessScreen <==> isSuccess
    ensures s == InvalidLinkScreen <==> !isSuccess && !isValidSession
    ensures s == FormScreen <==> !isSuccess && isValidSession
  {
    if isSuccess then SuccessScreen
    else if !isValidSession then InvalidLinkScreen
    else FormScreen
  }

  /** The page's state; `updateCalls` counts the calls of the hosted password update. */
  class ResetPasswordPage {
    var password: string
    var confirmPassword: string
    var isLoading: bool
    var isSuccess: bool
    var error: string
    var isValidSession: bool
    var updateCalls: nat

    constructor ()
      ensures password == "" && confirmPassword == "" && error == ""
      ensures !isLoading && !isSuccess && !isValidSession && updateCalls == 0
    {
      password, confirmPassword := "", "";
      isLoading, isSuccess := false, false;
      error := "";
      isValidSession := false;
      updateCalls := 0;
    }

    /** The mount effect: a session marks the link valid; a failed lookup changes nothing. */
    method SessionChecked(lookupFailed: bool, hasSession: bool)
      modifies this`isValidSession
      ensures isValidSession == (old(isValidSession) || (!lookupFailed && hasSession))
    {
      if lookupFailed {
        return;
      }
      if hasSession {
        isValidSession := true;
      }
    }

    method SetPassword(value: string)
      modifies this`password
      ensures password == value
    {
      password := value;
    }

    method SetConfirmPassword(value: string)
      modifies this`confirmPassword
      ensures confirmPassword == value
    {
      confirmPassword := value;
    }

    /**
     * `handleSubmit`. The update is called once, and only when both checks
     * pass; `outcome` is how it ends. Every path leaves `isLoading` false.
     */
    method HandleSubmit(outcome: UpdateOutcome)
      modifies this`isLoading, this`error, this`isSuccess, this`updateCalls
      ensures !isLoading
      ensures CheckPasswords(password, confirmPassword) != Accepted ==>
        updateCalls == old(updateCalls) && isSuccess == old(isSuccess)
        && error == CheckMessage(CheckPasswords(password, confirmPassword))
      ensures CheckPasswords(password, confirmPassword) == Accepted ==>
        updateCalls == old(updateCalls) + 1
        && (outcome.Updated? ==> isSuccess && error == "")
        && (outcome.Rejected? ==> isSuccess == old(isSuccess) && error == outcome.message)
        && (outcome.Threw? ==> isSuccess == old(isSuccess) && error == ThrownMessage(outcome.thrownMessage))
    {
      isLoading := true;
      error := "";

      if password != confirmPassword {
        error := MismatchError;
        isLoading := false;
        return;
      }

      if |password| < MinPasswordLength {
        error := TooShortError;
        isLoading := false;
        return;
      }

      updateCalls := updateCalls + 1;
      match outcome {
        case Updated =>
          isSuccess := true;
        case Rejected(message) =>
          error := message;
        case Threw(message) =>
          error := if message.Some? && message.value != "" then message.value else UnexpectedError;
      }
      isLoading := false;
    }
  }

  /** Mismatched passwords are reported before their length: "abc" against "abd" never reaches the length check. */
  method MismatchReportedFirst()
  {
    var page := new ResetPasswordPage();
    page.SetPassword("abc");
    page.SetConfirmPassword("abd");
    page.HandleSubmit(Updated);
    assert page.error == MismatchError && page.updateCalls == 0 && !page.isLoading;
  }
}
