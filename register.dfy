/**
 * The registration screen: four trimmed text fields checked in a fixed
 * order, the first failing check being the only one reported. A passing
 * form stores nothing; the screen simply moves on to the login screen.
 */
module Register {
  import opened Wrappers
  import opened JavaLang

  const MinPasswordLength: nat := 6

  /** The error shown beside a field (each `setError` call of the screen). */
  datatype RegisterError = NameMissing | EmailMissing | PasswordMissing | PasswordTooShort | PasswordMismatch

  /** What one tap on the register button leads to. */
  datatype RegisterOutcome = ShowError(error: RegisterError) | GoToLogin

  /** The chain of early-return checks; `None` when every check passes. */
  function ValidateInput(name: string, email: string, password: string, confirmPassword: string): (r: Option<RegisterError>)
    ensures r == None <==>
              name != [] && email != [] && Utf16Length(password) >= MinPasswordLength && password == confirmPassword
  {
    if name == [] then Some(NameMissing)
    else if email == [] then Some(EmailMissing)
    else if password == [] then Some(PasswordMissing)
    else if Utf16Length(password) < MinPasswordLength then Some(PasswordTooShort)
    else if password != confirmPassword then Some(PasswordMismatch)
    else None
  }

  /** The register button: trim every field, validate, and go to login when valid. */
  function OnRegisterClicked(nameText: string, emailText: string, passwordText: string, confirmText: string): (o: RegisterOutcome)
    ensures o == GoToLogin <==>
              && !AllBlank(nameText) && !AllBlank(emailText)
              && Utf16Length(Trim(passwordText)) >= MinPasswordLength && Trim(passwordText) == Trim(confirmText)
  {
    TrimEmptyIffAllBlank(nameText);
    TrimEmptyIffAllBlank(emailText);
    match ValidateInput(Trim(nameText), Trim(emailText), Trim(passwordText), Trim(confirmText))
    case Some(e) => ShowError(e)
    case None => GoToLogin
  }

  /** Each error is reported exactly when its check fails and every earlier check passed. */
  lemma ReportedErrorIsFirstFailing(name: string, email: string, password: string, confirmPassword: string)
    ensures var r := ValidateInput(name, email, password, confirmPassword);
      && (r == Some(NameMissing) <==> name == [])
      && (r == Some(EmailMissing) <==> name != [] && email == [])
      && (r == Some(PasswordMissing) <==> name != [] && email != [] && password == [])
      && (r == Some(PasswordTooShort) <==> name != [] && email != [] && 0 < Utf16Length(password) < MinPasswordLength)
      && (r == Some(PasswordMismatch) <==>
            name != [] && email != [] && Utf16Length(password) >= MinPasswordLength && password != confirmPassword)
  {
  }

  /** Any non-empty email passes: its format is never inspected. */
  lemma EmailFormatIgnored(name: string, email1: string, email2: string, password: string, confirmPassword: string)
    requires email1 != [] && email2 != []
    ensures ValidateInput(name, email1, password, confirmPassword) == ValidateInput(name, email2, password, confirmPassword)
  {
  }

  /** A name made only of blanks is reported as missing, whatever the other fields hold. */
  lemma BlankNameRejected(nameText: string, emailText: string, passwordText: string, confirmText: string)
    requires AllBlank(nameText)
    ensures OnRegisterClicked(nameText, emailText, passwordText, confirmText) == ShowError(NameMissing)
  {
    TrimEmptyIffAllBlank(nameText);
  }

  /** A password made only of blanks is reported as missing, not as too short. */
  lemma BlankPasswordMissing(nameText: string, emailText: string, passwordText: string, confirmText: string)
    requires !AllBlank(nameText) && !AllBlank(emailText) && AllBlank(passwordText)
    ensures OnRegisterClicked(nameText, emailText, passwordText, confirmText) == ShowError(PasswordMissing)
  {
    TrimEmptyIffAllBlank(nameText);
    TrimEmptyIffAllBlank(emailText);
    TrimEmptyIffAllBlank(passwordText);
  }

  /** Blanks typed around a password and its confirmation do not make them differ. */
  lemma PaddedPasswordsMatch(name: string, email: string, password: string, pad1: string, pad2: string)
    requires name != [] && !IsBlank(name[0]) && !IsBlank(name[|name| - 1])
    requires email != [] && !IsBlank(email[0]) && !IsBlank(email[|email| - 1])
    requires Utf16Length(password) >= MinPasswordLength && !IsBlank(password[0]) && !IsBlank(password[|password| - 1])
    requires AllBlank(pad1) && AllBlank(pad2)
    ensures OnRegisterClicked(name, email, pad1 + password + pad2, password) == GoToLogin
  {
    TrimKeepsTrimmed(name);
    TrimKeepsTrimmed(email);
    TrimKeepsTrimmed(password);
    TrimPadded(pad1, password, pad2);
  }

  /**
   * The length rule counts UTF-16 code units: three characters from outside
   * the Basic Multilingual Plane already make a long enough password, while
   * five ordinary characters do not.
   */
  lemma LengthCountsCodeUnits(name: string, email: string, wide: string, narrow: string)
    requires name != [] && email != []
    requires |wide| == 3 && forall k :: 0 <= k < |wide| ==> IsSupplementary(wide[k])
    requires |narrow| == 5 && forall k :: 0 <= k < |narrow| ==> !IsSupplementary(narrow[k])
    ensures ValidateInput(name, email, wide, wide) == None
    ensures ValidateInput(name, email, narrow, narrow) == Some(PasswordTooShort)
  {
    Utf16LengthSupplementary(wide);
    Utf16LengthBmp(narrow);
  }
}
