/** The screen the app shows at its root. */
module Navigation {
  datatype RootView = Login | SignUp | Home | Profile
}

/**
 * The sign-up screen: the ordered input checks of `validateInputs` and the
 * Create Account action around `FireAuthHelper.SignUp`.
 */
module SignUpScreen {
  import opened Wrappers
  import opened Backend
  import opened EmailFormat
  import opened FireAuth
  import opened Navigation

  datatype SignUpInput = SignUpInput(name: string, email: string, password: string, contactNumber: string)

  /** The checks, in the order `validateInputs` runs them. */
  datatype Check = NameEmpty | EmailEmpty | EmailMalformed | PasswordEmpty | PasswordTooShort | ContactEmpty

  const MinPasswordLength := 6

  /** The position of a check in the chain. */
  function Rank(c: Check): nat {
    match c
    case NameEmpty => 0
    case EmailEmpty => 1
    case EmailMalformed => 2
    case PasswordEmpty => 3
    case PasswordTooShort => 4
    case ContactEmpty => 5
  }

  /** Whether the input trips the check. */
  predicate Fails(c: Check, f: SignUpInput) {
    match c
    case NameEmpty => f.name == ""
    case EmailEmpty => f.email == ""
    case EmailMalformed => !IsValidEmail(f.email)
    case PasswordEmpty => f.password == ""
    case PasswordTooShort => |f.password| < MinPasswordLength
    case ContactEmpty => f.contactNumber == ""
  }

  /** The alert text each check sets. */
  function AlertText(c: Check): string {
    match c
    case NameEmpty => "Name cannot be empty."
    case EmailEmpty => "Email cannot be empty."
    case EmailMalformed => "Invalid email format."
    case PasswordEmpty => "Password cannot be empty."
    case PasswordTooShort => "Password must be at least 6 characters long."
    case ContactEmpty => "Contact number cannot be empty."
  }

  /**
   * The check `validateInputs` stops at, if any: the failing check that comes
   * first in the chain.
   */
  function FirstFailure(f: SignUpInput): (r: Option<Check>)
    ensures r.None? ==> forall c :: !Fails(c, f)
    ensures r.Some? ==> Fails(r.value, f) && forall c :: Rank(c) < Rank(r.value) ==> !Fails(c, f)
  {
    if f.name == "" then Some(NameEmpty)
    else if f.email == "" then Some(EmailEmpty)
    else if !IsValidEmail(f.email) then Some(EmailMalformed)
    else if f.password == "" then Some(PasswordEmpty)
    else if |f.password| < MinPasswordLength then Some(PasswordTooShort)
    else if f.contactNumber == "" then Some(ContactEmpty)
    else None
  }

  /** An accepted input has a name, a contact, a well-formed e-mail and a long enough password. */
  lemma AcceptedInputIsWellFormed(f: SignUpInput)
    requires FirstFailure(f).None?
    ensures f.name != "" && f.contactNumber != ""
    ensures MatchesEmailPattern(f.email)
    ensures |f.password| >= MinPasswordLength
  {
    assert !Fails(EmailMalformed, f) && !Fails(PasswordTooShort, f);
    IsValidEmailSound(f.email);
  }

  /** An input is accepted when it meets every requirement. */
  lemma WellFormedInputIsAccepted(f: SignUpInput)
    requires f.name != "" && f.contactNumber != ""
    requires MatchesEmailPattern(f.email)
    requires |f.password| >= MinPasswordLength
    ensures FirstFailure(f).None?
  {
    IsValidEmailComplete(f.email);
  }

  /** With a name and an e-mail present, a malformed e-mail is reported whatever the password is. */
  lemma MalformedEmailReportedBeforePassword(f: SignUpInput)
    requires f.name != "" && f.email != ""
    requires !MatchesEmailPattern(f.email)
    ensures FirstFailure(f) == Some(EmailMalformed)
  {
    IsValidEmailSound(f.email);
  }

  /**
   * When the button is enabled no field is empty, so only the e-mail format
   * or the password length can still stop `validateInputs`.
   */
  lemma EnabledButtonLeavesFormatChecks(f: SignUpInput, isLoading: bool)
    requires !Disabled(isLoading, f)
    ensures FirstFailure(f).None? || FirstFailure(f) == Some(EmailMalformed) || FirstFailure(f) == Some(PasswordTooShort)
  {
  }

  /** `.disabled(isLoading || name.isEmpty || email.isEmpty || password.isEmpty || contactNumber.isEmpty)` */
  predicate Disabled(isLoading: bool, f: SignUpInput) {
    isLoading || f.name == "" || f.email == "" || f.password == "" || f.contactNumber == ""
  }

  class SignUpView {
    var name: string
    var email: string
    var password: string
    var contactNumber: string
    var photo: string
    var isLoading: bool
    var showAlert: bool
    var alertMessage: string
    var rootScreen: RootView

    constructor (root: RootView)
      ensures name == "" && email == "" && password == "" && contactNumber == "" && photo == ""
      ensures !isLoading && !showAlert && alertMessage == "" && rootScreen == root
    {
      name, email, password, contactNumber, photo := "", "", "", "", "";
      isLoading, showAlert, alertMessage := false, false, "";
      rootScreen := root;
    }

    function Input(): SignUpInput
      reads this
    {
      SignUpInput(name, email, password, contactNumber)
    }

    /** Runs the checks in order and sets the alert text of the first that fails. */
    method ValidateInputs() returns (ok: bool)
      modifies this`alertMessage
      ensures ok <==> FirstFailure(Input()).None?
      ensures alertMessage == if ok then old(alertMessage) else AlertText(FirstFailure(Input()).value)
    {
      if name == "" {
        alertMessage := "Name cannot be empty.";
        return false;
      }
      if email == "" {
        alertMessage := "Email cannot be empty.";
        return false;
      }
      if !IsValidEmail(email) {
        alertMessage := "Invalid email format.";
        return false;
      }
      if password == "" {
        alertMessage := "Password cannot be empty.";
        return false;
      }
      if |password| < MinPasswordLength {
        alertMessage := "Password must be at least 6 characters long.";
        return false;
      }
      if contactNumber == "" {
        alertMessage := "Contact number cannot be empty.";
        return false;
      }
      return true;
    }

    /**
     * The `signUp` call that valid input reaches, with its completion: back to
     * the login screen on success, the error shown otherwise.
     */
    method SubmitSignUp(auth: FireAuthHelper, db: Firestore, defaults: UserDefaults,
                        reply: AuthReply, writeFailure: Option<Error>)
      modifies this`rootScreen, this`showAlert, this`alertMessage, this`isLoading, auth, db, defaults
      ensures !isLoading && auth.listenerCount == old(auth.listenerCount)
      ensures var (success, error) := SignUpCompletion(reply, writeFailure);
        (success ==> rootScreen == Login && showAlert == old(showAlert) && alertMessage == old(alertMessage)) &&
        (!success ==> rootScreen == old(rootScreen) && showAlert && alertMessage == ErrorText(error, "Sign up failed"))
      ensures reply.user.None? ==>
        auth.user == old(auth.user) && db.collections == old(db.collections) && defaults.values == old(defaults.values)
      ensures reply.user.Some? ==>
        auth.user == reply.user &&
        AccountSetUp(old(db.collections), db.collections, old(defaults.values), defaults.values,
                     reply.user.value, ProfileFields(name, email, contactNumber, photo), writeFailure)
    {
      isLoading := true;
      var success, error := auth.SignUp(name, email, password, contactNumber, photo, reply, db, defaults, writeFailure);
      isLoading := false;
      if success {
        rootScreen := Login;
      } else {
        alertMessage := ErrorText(error, "Sign up failed");
        showAlert := true;
      }
    }

    /**
     * A tap on Create Account. A disabled button ignores it; otherwise the
     * input is validated, and only valid input reaches `signUp`.
     */
    method CreateAccountTapped(auth: FireAuthHelper, db: Firestore, defaults: UserDefaults,
                               reply: AuthReply, writeFailure: Option<Error>)
      modifies this`rootScreen, this`showAlert, this`alertMessage, this`isLoading, auth, db, defaults
      ensures old(Disabled(isLoading, Input())) ==>
        rootScreen == old(rootScreen) && showAlert == old(showAlert) && alertMessage == old(alertMessage) &&
        isLoading == old(isLoading) && auth.user == old(auth.user) && db.collections == old(db.collections) &&
        defaults.values == old(defaults.values)
      ensures auth.listenerCount == old(auth.listenerCount)
      ensures !old(Disabled(isLoading, Input())) && FirstFailure(old(Input())).Some? ==>
        showAlert && alertMessage == AlertText(FirstFailure(old(Input())).value) && rootScreen == old(rootScreen) &&
        isLoading == old(isLoading) &&
        auth.user == old(auth.user) && db.collections == old(db.collections) && defaults.values == old(defaults.values)
      ensures !old(Disabled(isLoading, Input())) && FirstFailure(old(Input())).None? ==>
        !isLoading &&
        var (success, error) := SignUpCompletion(reply, writeFailure);
        (success ==> rootScreen == Login && showAlert == old(showAlert) && alertMessage == old(alertMessage)) &&
        (!success ==> rootScreen == old(rootScreen) && showAlert && alertMessage == ErrorText(error, "Sign up failed"))
      ensures !old(Disabled(isLoading, Input())) && FirstFailure(old(Input())).None? && reply.user.None? ==>
        auth.user == old(auth.user) && db.collections == old(db.collections) && defaults.values == old(defaults.values)
      ensures !old(Disabled(isLoading, Input())) && FirstFailure(old(Input())).None? && reply.user.Some? ==>
        auth.user == reply.user &&
        AccountSetUp(old(db.collections), db.collections, old(defaults.values), defaults.values,
                     reply.user.value, ProfileFields(old(name), old(email), old(contactNumber), old(photo)), writeFailure)
    {
      var input := Input();
      if Disabled(isLoading, input) {
        return;
      }
      var ok := ValidateInputs();
      assert Input() == input;
      if ok {
        SubmitSignUp(auth, db, defaults, reply, writeFailure);
      } else {
        showAlert := true;
      }
    }
  }
}
