/**
 * The sign-in / sign-up dialog of src/components/AuthModal.tsx: its form fields, the checks it
 * makes before calling the session store, and the messages it shows.
 */
module AuthModal {
  import opened Wrappers
  import opened Types
  import opened Strings
  import opened AuthContext

  datatype Mode = SignIn | SignUp

  const MinPasswordLength: nat := 6
  const PasswordTooShort: string := "Password must be at least 6 characters"
  const PasswordsDoNotMatch: string := "Passwords do not match"
  const InvalidCredentials: string := "Invalid email or password"
  const EmailExists: string := "Email already exists"

  /** The message that stops a submission before the session store is called, if any. Only
      sign-up checks, and the length check comes first. */
  function ValidationError(mode: Mode, password: string, confirmPassword: string): (r: Option<string>)
    ensures r.None? <==> (mode.SignIn? || (|password| >= MinPasswordLength && password == confirmPassword))
    ensures mode.SignUp? && |password| < MinPasswordLength ==> r == Some(PasswordTooShort)
    ensures mode.SignUp? && |password| >= MinPasswordLength && password != confirmPassword ==>
      r == Some(PasswordsDoNotMatch)
    ensures r.Some? ==> r.value in {PasswordTooShort, PasswordsDoNotMatch}
  {
    if mode.SignUp? && |password| < MinPasswordLength then Some(PasswordTooShort)
    else if mode.SignUp? && password != confirmPassword then Some(PasswordsDoNotMatch)
    else None
  }

  /** `email.split('@')[0]`: the part before the first '@', or the whole email without one. */
  function UsernameFromEmail(email: string): (r: string)
    ensures '@' !in r
    ensures |r| <= |email| && r == email[..|r|]
    ensures |r| < |email| <==> '@' in email
    ensures |r| < |email| ==> email[|r|] == '@'
  {
    SplitFirstPiece(email, '@');
    Split(email, '@')[0]
  }

  class Modal {
    var mode: Mode
    var email: string
    var password: string
    var confirmPassword: string
    var error: string
    var loading: bool

    /** A fresh dialog in `initialMode` with empty fields. */
    constructor (initialMode: Mode)
      ensures mode == initialMode && !loading
      ensures email == "" && password == "" && confirmPassword == "" && error == ""
    {
      mode := initialMode;
      email, password, confirmPassword := "", "", "";
      error := "";
      loading := false;
    }

    /** The effect on opening: back to `initialMode` with every field and the error cleared. */
    method OnOpen(isOpen: bool, initialMode: Mode)
      modifies this`mode, this`error, this`email, this`password, this`confirmPassword
      ensures isOpen ==> mode == initialMode && error == ""
      ensures isOpen ==> email == "" && password == "" && confirmPassword == ""
      ensures !isOpen ==> mode == old(mode) && error == old(error) && email == old(email)
      ensures !isOpen ==> password == old(password) && confirmPassword == old(confirmPassword)
    {
      if isOpen {
        mode := initialMode;
        error := "";
        email := "";
        password := "";
        confirmPassword := "";
      }
    }

    /** Toggles sign-in and sign-up, clearing the error and every field. */
    method SwitchMode()
      modifies this`mode, this`error, this`email, this`password, this`confirmPassword
      ensures mode != old(mode)
      ensures error == "" && email == "" && password == "" && confirmPassword == ""
    {
      mode := if mode == SignIn then SignUp else SignIn;
      error := "";
      email := "";
      password := "";
      confirmPassword := "";
    }

    /** Submitting the form. In sign-up mode a short password or a mismatched confirmation stops
        here with its message. Otherwise the session store is called: `login` in sign-in mode,
        `register` with the email's local part as username in sign-up mode. `closed` says
        whether `onClose` was called, which happens exactly when that call succeeded. */
    method HandleSubmit(auth: AuthProvider, freshId: string) returns (closed: bool)
      modifies this`error, this`loading, auth, auth.storage`user, auth.storage`registeredUsers
      ensures ValidationError(mode, password, confirmPassword).Some? ==>
        error == ValidationError(mode, password, confirmPassword).value && !closed && loading == old(loading) &&
        auth.user == old(auth.user) && auth.storage.user == old(auth.storage.user) &&
        auth.storage.registeredUsers == old(auth.storage.registeredUsers)
      ensures ValidationError(mode, password, confirmPassword).None? ==> !loading
      ensures mode == SignIn ==>
        closed == LoginResult(old(auth.Registered()), email, password, freshId).Some? &&
        error == (if closed then "" else InvalidCredentials) &&
        (closed ==> auth.user == LoginResult(old(auth.Registered()), email, password, freshId))
      ensures mode == SignUp && ValidationError(mode, password, confirmPassword).None? ==>
        closed == !EmailTaken(old(auth.Registered()), email) &&
        error == (if closed then "" else EmailExists) &&
        (closed ==> auth.user == Some(User(freshId, email, UsernameFromEmail(email), None))) &&
        (closed ==> auth.storage.registeredUsers
                    == Some(old(auth.Registered()) + [NewAccount(freshId, email, UsernameFromEmail(email), password)]))
      ensures mode == SignIn ==> auth.storage.registeredUsers == old(auth.storage.registeredUsers)
      ensures !closed ==>
        auth.user == old(auth.user) && auth.storage.user == old(auth.storage.user) &&
        auth.storage.registeredUsers == old(auth.storage.registeredUsers)
      ensures closed ==> auth.storage.user == auth.user
    {
      error := "";
      if mode == SignUp {
        if |password| < MinPasswordLength {
          error := PasswordTooShort;
          return false;
        }
        if password != confirmPassword {
          error := PasswordsDoNotMatch;
          return false;
        }
      }
      loading := true;
      var success := false;
      if mode == SignIn {
        success := auth.Login(email, password, freshId);
        if !success {
          error := InvalidCredentials;
        }
      } else {
        var username := UsernameFromEmail(email);
        success := auth.Register(email, username, password, freshId);
        if !success {
          error := EmailExists;
        }
      }
      closed := success;
      loading := false;
    }
  }
}
