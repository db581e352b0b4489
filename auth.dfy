/**
 * The sign-in, registration and password-reset pages of app.py, reduced to
 * the decisions they take and the session fields and sheet rows they change.
 * Each button press of a page is one method of `App`; the text fields the
 * user typed are its parameters, and the notice the page shows is its result.
 */
module Auth {
  import opened Wrappers
  import opened CredentialStore
  import opened Otp

  /** The values of `st.session_state['page']`. */
  datatype Page = LoginPage | RegisterPage | ForgotPassPage | DashboardPage

  /** The error and success notices the pages show. */
  datatype Notice =
    | UserNotFound | IncorrectPassword | SignedIn
    | PasswordsDiffer | PasswordTooShort | UserExists | AccountCreated
    | EmailNotFound | CodeIssued
    | InvalidOtp | PasswordUpdated

  /** Registration refuses passwords shorter than this. */
  const MinPasswordLength: nat := 4

  /** Which notice "Access Dashboard" leads to. */
  function LoginCheck(rows: seq<Row>, bc: Bcrypt, email: string, password: string): (r: Notice)
    ensures r in {UserNotFound, IncorrectPassword, SignedIn}
    ensures r == UserNotFound <==> !Registered(rows, email)
    ensures r == SignedIn <==> Registered(rows, email) && bc.checkPw(password, StoredHash(rows, email))
  {
    match Lookup(rows, email)
    case None => UserNotFound
    case Some(i) =>
      if bc.checkPw(password, rows[i].hash) then SignedIn else IncorrectPassword
  }

  /**
   * Which notice "Register Now" leads to. The confirmation is compared
   * first, the length second, and the sheet is consulted only after both.
   */
  function RegisterCheck(rows: seq<Row>, email: string, password: string, confirm: string): (r: Notice)
    ensures r in {PasswordsDiffer, PasswordTooShort, UserExists, AccountCreated}
    ensures r == PasswordsDiffer <==> password != confirm
    ensures r == PasswordTooShort <==> password == confirm && |password| < MinPasswordLength
    ensures r == UserExists <==>
      password == confirm && |password| >= MinPasswordLength && Registered(rows, email)
    ensures r == AccountCreated <==>
      password == confirm && |password| >= MinPasswordLength && !Registered(rows, email)
  {
    if password != confirm then PasswordsDiffer
    else if |password| < MinPasswordLength then PasswordTooShort
    else if Lookup(rows, email).Some? then UserExists
    else AccountCreated
  }

  /**
   * Which notice "Update Password" leads to, given the code the session
   * holds. The confirmation is compared before the code.
   */
  function ResetCheck(otp: string, enteredOtp: string, password: string, confirm: string): (r: Notice)
    ensures r in {PasswordsDiffer, InvalidOtp, PasswordUpdated}
    ensures r == PasswordsDiffer <==> password != confirm
    ensures r == InvalidOtp <==> password == confirm && enteredOtp != otp
    ensures r == PasswordUpdated <==> password == confirm && enteredOtp == otp
  {
    if password != confirm then PasswordsDiffer
    else if enteredOtp != otp then InvalidOtp
    else PasswordUpdated
  }

  /** The session fields of app.py together with the credential sheet they act on. */
  class App {
    var page: Page
    var user: Option<string>
    var otp: Option<string>
    var resetEmail: Option<string>
    var rows: seq<Row>

    /**
     * The dashboard is shown only to a signed-in, registered user; a pending
     * one-time code exists only on the reset page, is six digits, and belongs
     * to a registered email.
     */
    ghost predicate Valid()
      reads this
    {
      && (page == DashboardPage ==> user.Some? && Registered(rows, user.value))
      && (otp.Some? ==>
            && page == ForgotPassPage
            && IsOtp(otp.value)
            && resetEmail.Some?
            && Registered(rows, resetEmail.value))
    }

    /** A fresh session over the current sheet. */
    constructor (sheet: seq<Row>)
      ensures Valid()
      ensures page == LoginPage && user == None && otp == None && resetEmail == None
      ensures rows == sheet
    {
      page := LoginPage;
      user := None;
      otp := None;
      resetEmail := None;
      rows := sheet;
    }

    /** "Access Dashboard": only the page and the user can change, and only on success. */
    method Login(bc: Bcrypt, email: string, password: string) returns (notice: Notice)
      requires Valid() && page == LoginPage
      modifies this`page, this`user
      ensures Valid()
      ensures notice == LoginCheck(rows, bc, email, password)
      ensures notice == SignedIn ==> page == DashboardPage && user == Some(email)
      ensures notice != SignedIn ==> page == old(page) && user == old(user)
    {
      var cell := Lookup(rows, email);
      if cell.None? {
        notice := UserNotFound;
      } else {
        var storedHash := rows[cell.value].hash;
        if bc.checkPw(password, storedHash) {
          page := DashboardPage;
          user := Some(email);
          notice := SignedIn;
        } else {
          notice := IncorrectPassword;
        }
      }
    }

    /** "Register Now": on success exactly one row is appended and the login page shown. */
    method Register(bc: Bcrypt, salt: string, email: string, password: string, confirm: string)
      returns (notice: Notice)
      requires Valid() && page == RegisterPage
      modifies this`rows, this`page
      ensures Valid()
      ensures notice == RegisterCheck(old(rows), email, password, confirm)
      ensures notice == AccountCreated ==>
        rows == old(rows) + [Row(email, bc.hashPw(password, salt))] && page == LoginPage
      ensures notice != AccountCreated ==> rows == old(rows) && page == old(page)
      ensures UniqueEmails(old(rows)) ==> UniqueEmails(rows)
    {
      if password != confirm {
        notice := PasswordsDiffer;
      } else if |password| < MinPasswordLength {
        notice := PasswordTooShort;
      } else {
        var existing := Lookup(rows, email);
        if existing.Some? {
          notice := UserExists;
        } else {
          var hashed := bc.hashPw(password, salt);
          if UniqueEmails(rows) {
            AppendNewKeepsUnique(rows, email, hashed);
          }
          rows := rows + [Row(email, hashed)];
          page := LoginPage;
          notice := AccountCreated;
        }
      }
    }

    /**
     * "Send Verification Code" (stage 1, shown while no code is pending):
     * a code is issued only for a registered email.
     */
    method SendCode(email: string, picks: seq<nat>) returns (notice: Notice)
      requires Valid() && page == ForgotPassPage && otp == None
      requires ValidPicks(picks)
      modifies this`otp, this`resetEmail
      ensures Valid()
      ensures notice == CodeIssued <==> Registered(rows, email)
      ensures notice != CodeIssued ==> notice == EmailNotFound
      ensures notice == CodeIssued ==> otp == Some(GenerateOtp(picks)) && resetEmail == Some(email)
      ensures notice != CodeIssued ==> otp == old(otp) && resetEmail == old(resetEmail)
    {
      var cell := Lookup(rows, email);
      if cell.None? {
        notice := EmailNotFound;
      } else {
        otp := Some(GenerateOtp(picks));
        resetEmail := Some(email);
        notice := CodeIssued;
      }
    }

    /**
     * "Update Password" (stage 2, shown while a code is pending): on success
     * only the hash of the reset email's row changes, the reset state is
     * cleared and the login page shown; on either failure nothing changes.
     */
    method UpdatePassword(bc: Bcrypt, salt: string, enteredOtp: string, password: string, confirm: string)
      returns (notice: Notice)
      requires Valid() && page == ForgotPassPage && otp.Some?
      modifies this`rows, this`otp, this`resetEmail, this`page
      ensures Valid()
      ensures notice == ResetCheck(old(otp).value, enteredOtp, password, confirm)
      ensures notice == PasswordUpdated ==>
        && Registered(old(rows), old(resetEmail).value)
        && rows == SetHash(old(rows), Lookup(old(rows), old(resetEmail).value).value,
                           bc.hashPw(password, salt))
        && otp == None && resetEmail == None && page == LoginPage
      ensures notice != PasswordUpdated ==>
        rows == old(rows) && otp == old(otp) && resetEmail == old(resetEmail) && page == old(page)
    {
      if password != confirm {
        notice := PasswordsDiffer;
      } else if enteredOtp != otp.value {
        notice := InvalidOtp;
      } else {
        var hashed := bc.hashPw(password, salt);
        var cell := Lookup(rows, resetEmail.value);
        rows := SetHash(rows, cell.value, hashed);
        otp := None;
        resetEmail := None;
        page := LoginPage;
        notice := PasswordUpdated;
      }
    }

    /** "Cancel" on stage 2: the pending code is dropped; the reset email stays recorded. */
    method CancelReset()
      requires Valid() && page == ForgotPassPage && otp.Some?
      modifies this`otp, this`page
      ensures Valid()
      ensures otp == None && page == LoginPage
    {
      otp := None;
      page := LoginPage;
    }

    /** "Forgot Password?" on the login page. */
    method OpenForgotPassword()
      requires Valid() && page == LoginPage
      modifies this`page
      ensures Valid()
      ensures page == ForgotPassPage
      ensures otp == None
    {
      page := ForgotPassPage;
    }

    /** "Create Account" on the login page. */
    method OpenRegister()
      requires Valid() && page == LoginPage
      modifies this`page
      ensures Valid()
      ensures page == RegisterPage
    {
      page := RegisterPage;
    }

    /** "Back to Login" on the registration page. */
    method BackToLogin()
      requires Valid() && page == RegisterPage
      modifies this`page
      ensures Valid()
      ensures page == LoginPage
    {
      page := LoginPage;
    }

    /** "Sign Out" on the dashboard. */
    method SignOut()
      requires Valid() && page == DashboardPage
      modifies this`page, this`user
      ensures Valid()
      ensures page == LoginPage && user == None
    {
      page := LoginPage;
      user := None;
    }
  }

  /**
   * A successful registration lets the new user sign in with the password
   * just chosen, and with no other.
   */
  lemma RegisterThenLogin(bc: Bcrypt, rows: seq<Row>, salt: string, email: string, password: string, other: string)
    requires Verifies(bc)
    requires RegisterCheck(rows, email, password, password) == AccountCreated
    ensures LoginCheck(rows + [Row(email, bc.hashPw(password, salt))], bc, email, password) == SignedIn
    ensures Rejects(bc) && other != password ==>
      LoginCheck(rows + [Row(email, bc.hashPw(password, salt))], bc, email, other) == IncorrectPassword
  {
    LookupAppendNew(rows, email, bc.hashPw(password, salt));
  }

  /** Registering an email a second time is refused once the password passes the confirmation and length rules. */
  lemma SecondRegistrationRefused(rows: seq<Row>, hash: string, email: string, password: string)
    requires |password| >= MinPasswordLength
    ensures RegisterCheck(rows + [Row(email, hash)], email, password, password) == UserExists
  {
    assert (rows + [Row(email, hash)])[|rows|].email == email;
  }

  /** A registration changes no other user's sign-in outcome. */
  lemma RegisterKeepsOtherLogins(bc: Bcrypt, rows: seq<Row>, hash: string, email: string,
                                 someone: string, password: string)
    requires !Registered(rows, email) && someone != email
    ensures LoginCheck(rows + [Row(email, hash)], bc, someone, password) == LoginCheck(rows, bc, someone, password)
  {
    if Registered(rows, someone) {
      LookupAppendOther(rows, Row(email, hash), someone);
    }
  }

  /**
   * After a reset, the user signs in with the new password and, if it
   * differs, no longer with the old one; every other user is unaffected.
   */
  lemma ResetThenLogin(bc: Bcrypt, rows: seq<Row>, i: nat, salt: string, email: string, password: string,
                       oldPassword: string, someone: string, attempt: string)
    requires Verifies(bc) && Lookup(rows, email) == Some(i)
    ensures LoginCheck(SetHash(rows, i, bc.hashPw(password, salt)), bc, email, password) == SignedIn
    ensures Rejects(bc) && oldPassword != password ==>
      LoginCheck(SetHash(rows, i, bc.hashPw(password, salt)), bc, email, oldPassword) == IncorrectPassword
    ensures someone != email ==>
      LoginCheck(SetHash(rows, i, bc.hashPw(password, salt)), bc, someone, attempt)
        == LoginCheck(rows, bc, someone, attempt)
  {
    LookupSetHash(rows, i, bc.hashPw(password, salt), email);
    LookupSetHash(rows, i, bc.hashPw(password, salt), someone);
  }

  /**
   * Reset has no length rule: a password that registration refuses as too
   * short is accepted by "Update Password" once confirmed with the right code.
   */
  lemma ResetSkipsLengthRule(rows: seq<Row>, email: string, otp: string, password: string)
    requires |password| < MinPasswordLength
    ensures RegisterCheck(rows, email, password, password) == PasswordTooShort
    ensures ResetCheck(otp, otp, password, password) == PasswordUpdated
  {
  }
}
