/**
 * The login screen: both fields are checked independently, one
 * hard-coded credential pair is accepted, and the accepted email is
 * persisted under the key "email"; a persisted email skips the form.
 */
module Login {
  import opened Wrappers
  import opened JavaLang

  const KeyEmail: string := "email"
  const TestEmail: string := "user@example.com"
  const TestPassword: string := "123456"
  const MinPasswordLength: nat := 6

  datatype EmailError = EmailMissing | EmailMalformed
  datatype PasswordError = PasswordMissing | PasswordTooShort

  /** Where the screen goes next. */
  datatype Screen = LoginForm | Home(email: string)

  /** What one tap on the login button leads to. */
  datatype LoginOutcome =
    | Invalid(emailError: Option<EmailError>, passwordError: Option<PasswordError>)
    | WrongCredentials
    | LoggedIn(email: string)

  /**
   * Field validation. `emailPattern` stands for the platform's
   * `Patterns.EMAIL_ADDRESS` matcher. Both fields are always inspected,
   * so both can carry an error after one call.
   */
  method ValidateInput(email: string, password: string, emailPattern: string -> bool)
    returns (isValid: bool, emailError: Option<EmailError>, passwordError: Option<PasswordError>)
    ensures isValid <==> email != [] && emailPattern(email) && Utf16Length(password) >= MinPasswordLength
    ensures emailError == Some(EmailMissing) <==> email == []
    ensures emailError == Some(EmailMalformed) <==> email != [] && !emailPattern(email)
    ensures emailError == None <==> email != [] && emailPattern(email)
    ensures passwordError == Some(PasswordMissing) <==> password == []
    ensures passwordError == Some(PasswordTooShort) <==> 0 < Utf16Length(password) < MinPasswordLength
    ensures passwordError == None <==> Utf16Length(password) >= MinPasswordLength
  {
    isValid := true;
    emailError, passwordError := None, None;

    if email == [] {
      emailError := Some(EmailMissing);
      isValid := false;
    } else if !emailPattern(email) {
      emailError := Some(EmailMalformed);
      isValid := false;
    }

    if password == [] {
      passwordError := Some(PasswordMissing);
      isValid := false;
    } else if Utf16Length(password) < MinPasswordLength {
      passwordError := Some(PasswordTooShort);
      isValid := false;
    }
  }

  /** The only credential pair the screen accepts. */
  predicate IsTestCredential(email: string, password: string)
  {
    email == TestEmail && password == TestPassword
  }

  /** The accepted password itself passes the length rule. */
  lemma TestPasswordLongEnough()
    ensures Utf16Length(TestPassword) == MinPasswordLength
  {
    Utf16LengthBmp(TestPassword);
  }

  class LoginActivity {
    /** The "LoginPrefs" preferences file, as a string-to-string map. */
    var prefs: map<string, string>

    constructor (stored: map<string, string>)
      ensures prefs == stored
    {
      prefs := stored;
    }

    /** A session exists exactly when an email is persisted, and it is that email. */
    predicate IsLoggedIn()
      reads this
      ensures IsLoggedIn() ==> KeyEmail in prefs && StoredEmail() == prefs[KeyEmail]
      ensures !IsLoggedIn() ==> StoredEmail() == ""
    {
      KeyEmail in prefs
    }

    /** The persisted email, or the empty default when none is stored. */
    function StoredEmail(): (r: string)
      reads this
      ensures r != "" ==> KeyEmail in prefs && prefs[KeyEmail] == r
      ensures KeyEmail !in prefs ==> r == ""
    {
      if KeyEmail in prefs then prefs[KeyEmail] else ""
    }

    /** Screen start: a persisted email skips the form and goes home with that email. */
    method OnCreate() returns (next: Screen)
      ensures next.Home? <==> KeyEmail in prefs
      ensures next.Home? ==> next.email == prefs[KeyEmail]
    {
      if IsLoggedIn() {
        next := Home(StoredEmail());
      } else {
        next := LoginForm;
      }
    }

    method SaveLoginState(email: string)
      modifies this
      ensures prefs == old(prefs)[KeyEmail := email]
    {
      prefs := prefs[KeyEmail := email];
    }

    /** Accepts only the test pair, persisting its email; anything else changes nothing. */
    method AuthenticateUser(email: string, password: string) returns (next: Screen)
      modifies this
      ensures IsTestCredential(email, password) ==> prefs == old(prefs)[KeyEmail := email] && next == Home(email)
      ensures !IsTestCredential(email, password) ==> prefs == old(prefs) && next == LoginForm
    {
      if email == TestEmail && password == TestPassword {
        SaveLoginState(email);
        next := Home(email);
      } else {
        next := LoginForm;
      }
    }

    /** The login button: trim both fields, validate, and authenticate only valid input. */
    method OnLoginClicked(emailText: string, passwordText: string, emailPattern: string -> bool)
      returns (outcome: LoginOutcome)
      modifies this
      ensures var email, password := Trim(emailText), Trim(passwordText);
        && (outcome.Invalid? <==> !(email != [] && emailPattern(email) && Utf16Length(password) >= MinPasswordLength))
        && (outcome.Invalid? ==>
              && outcome.emailError == (if email == [] then Some(EmailMissing)
                                        else if !emailPattern(email) then Some(EmailMalformed) else None)
              && outcome.passwordError == (if password == [] then Some(PasswordMissing)
                                           else if Utf16Length(password) < MinPasswordLength then Some(PasswordTooShort)
                                           else None))
        && (outcome == WrongCredentials <==>
              email != [] && emailPattern(email) && Utf16Length(password) >= MinPasswordLength
              && !IsTestCredential(email, password))
      ensures outcome.LoggedIn? <==>
                IsTestCredential(Trim(emailText), Trim(passwordText)) && emailPattern(TestEmail)
      ensures outcome.LoggedIn? ==> outcome.email == TestEmail && prefs == old(prefs)[KeyEmail := TestEmail]
      ensures !outcome.LoggedIn? ==> prefs == old(prefs)
    {
      var email := Trim(emailText);
      var password := Trim(passwordText);
      TestPasswordLongEnough();
      var isValid, emailError, passwordError := ValidateInput(email, password, emailPattern);
      if !isValid {
        outcome := Invalid(emailError, passwordError);
      } else {
        var next := AuthenticateUser(email, password);
        outcome := if next.Home? then LoggedIn(next.email) else WrongCredentials;
      }
    }
  }

  /** The test email typed between two spaces trims back to the test email. */
  lemma PaddedTestEmail()
    ensures Trim(" " + TestEmail + " ") == TestEmail
  {
    TrimPadded(" ", TestEmail, " ");
  }

  /** The test password followed by a tab trims back to the test password. */
  lemma PaddedTestPassword()
    ensures Trim(TestPassword + "\t") == TestPassword
  {
    var padded := TestPassword + "\t";
    assert [] + TestPassword + "\t" == padded;
    TrimPadded([], TestPassword, "\t");
  }

  /**
   * A successful login followed by a fresh start of the screen goes
   * straight home: the persisted email is what the next start finds.
   */
  method LoginThenRestart(stored: map<string, string>, emailPattern: string -> bool)
    returns (first: LoginOutcome, second: Screen)
    requires emailPattern(TestEmail)
    ensures first == LoggedIn(TestEmail)
    ensures second == Home(TestEmail)
  {
    var emailText := " " + TestEmail + " ";
    var passwordText := TestPassword + "\t";
    PaddedTestEmail();
    PaddedTestPassword();
    var screen := new LoginActivity(stored);
    first := screen.OnLoginClicked(emailText, passwordText, emailPattern);
    var restarted := new LoginActivity(screen.prefs);
    second := restarted.OnCreate();
  }
}
