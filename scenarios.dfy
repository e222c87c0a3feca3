/**
 * Short runs through the helpers, stated and proved from their contracts
 * alone: what a caller of the session and data layers can rely on.
 */
module Scenarios {
  import opened Wrappers
  import opened Backend
  import opened Records
  import opened EmailFormat
  import opened FireAuth
  import opened FireDB
  import opened SignUpScreen

  /** Signing out twice succeeds both times and leaves no user. */
  method SignOutTwice(auth: FireAuthHelper) returns (first: bool, second: bool)
    modifies auth
    ensures first && second && auth.user.None?
  {
    var error: Option<Error>;
    first, error := auth.SignOut(None);
    second, error := auth.SignOut(None);
  }

  /** A failed sign-in leaves the session as it was. */
  method FailedSignInKeepsSession(auth: FireAuthHelper, defaults: UserDefaults, email: string, password: string, error: Error)
    returns (success: bool)
    modifies auth, defaults
    ensures !success && auth.user == old(auth.user) && defaults.values == old(defaults.values)
  {
    var reported: Option<Error>;
    success, reported := auth.SignIn(email, password, AuthReply(None, Some(error)), defaults);
  }

  /** After a sign-up whose profile write succeeds, fetching the profile yields the fields given. */
  method SignUpThenGetProfile(auth: FireAuthHelper, dbHelper: FireDBHelper, db: Firestore, defaults: UserDefaults,
                              user: User, name: string, email: string, password: string, contactNumber: string, photo: string)
    returns (success: bool)
    modifies auth, dbHelper, db, defaults
    ensures success && auth.user == Some(user)
    ensures dbHelper.userProfile == Some(UserProfile(Some(user.uid), photo, name, email, contactNumber))
  {
    var error: Option<Error>;
    success, error := auth.SignUp(name, email, password, contactNumber, photo, AuthReply(Some(user), None), db, defaults, None);
    SignUpProfileReadsBack(old(db.collections), user.uid, name, email, contactNumber, photo);
    dbHelper.GetUserProfile(Some(user), db, None);
  }

  /** A sign-up whose profile write fails reports failure yet leaves the new user signed in. */
  method SignUpPartialFailure(auth: FireAuthHelper, db: Firestore, defaults: UserDefaults,
                              user: User, name: string, email: string, password: string, contactNumber: string, photo: string,
                              writeError: Error)
    returns (success: bool, error: Option<Error>)
    modifies auth, db, defaults
    ensures !success && error == Some(writeError) && auth.user == Some(user)
    ensures db.collections == old(db.collections)
  {
    success, error := auth.SignUp(name, email, password, contactNumber, photo, AuthReply(Some(user), None), db, defaults, Some(writeError));
  }

  /** A complaint by `u1` reaches `u1`'s list when the store delivers it. */
  method LeakyFaucet(dbHelper: FireDBHelper, db: Firestore, newId: string)
    modifies dbHelper, db
    ensures |dbHelper.complaintList| == 1 && dbHelper.complaintList[0].subject == "Leaky faucet"
  {
    var c := Complaint(None, "Leaky faucet", "Kitchen sink", "u1");
    dbHelper.InsertComplaint(c, db, newId, None);
    dbHelper.GetUserComplaints(Some(User("u1", None, None)));
    dbHelper.ReceiveComplaints(None, Some([Document(newId, EncodeComplaint(c))]));
    ComplaintRoundTrip(c, newId);
    AllValidComplaintsKept([Document(newId, EncodeComplaint(c))]);
  }

  /**
   * A form with a name and a well-formed e-mail but a password of one to five
   * characters is refused with the length message, before any account is created.
   */
  lemma ShortPasswordRefused(name: string, local: string, domain: string, tld: string,
                             password: string, contactNumber: string)
    requires name != "" && IsLocalPart(local) && IsDomainPart(domain) && IsTopLevelPart(tld)
    requires 0 < |password| < MinPasswordLength
    ensures FirstFailure(SignUpInput(name, local + "@" + domain + "." + tld, password, contactNumber))
      == Some(PasswordTooShort)
  {
    var email := local + "@" + domain + "." + tld;
    assert IsEmailSplit(email, local, domain, tld);
    IsValidEmailComplete(email);
  }
}
