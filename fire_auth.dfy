/**
 * The session holder (`FireAuthHelper`): one field, the signed-in `user`,
 * set by sign-in and sign-up and cleared by sign-out. Each call to the
 * authentication service is given its reply as a parameter; its completion
 * handler runs at once, in the same method.
 */
module FireAuth {
  import opened Wrappers
  import opened Backend
  import opened Records

  /** The key under which the signed-in user's e-mail is remembered. */
  const KeyEmail := "KEY_EMAIL"

  const NoUserLoggedIn := Error("No user logged in")

  /** What `createUser` or `signIn` hands its callback: an auth result, an error, each optional. */
  datatype AuthReply = AuthReply(user: Option<User>, error: Option<Error>)

  /** The document `saveUserProfile` writes: exactly the four profile fields, all as given. */
  function ProfileFields(name: string, email: string, contactNumber: string, photo: string): (r: Fields)
    ensures r == EncodeProfile(UserProfile(None, photo, name, email, contactNumber))
  {
    map["name" := Str(name), "email" := Str(email), "contactNumber" := Str(contactNumber), "photo" := Str(photo)]
  }

  /** The remembered e-mail: `set(user?.email, forKey:)`, which removes the key for a user without one. */
  function RememberEmail(prefs: Prefs, user: User): (r: Prefs)
    ensures user.email.Some? ==> StringFor(r, KeyEmail) == user.email
    ensures user.email.None? ==> KeyEmail !in r
    ensures forall k :: k != KeyEmail ==> (k in r <==> k in prefs) && (k in r ==> r[k] == prefs[k])
  {
    SetOptional(prefs, KeyEmail, match user.email case Some(e) => Some(PrefString(e)) case None => None)
  }

  /**
   * The store and preferences once `signUp` has created `user`: its e-mail
   * is remembered, and its profile document holds `fields` unless the write
   * failed.
   */
  predicate AccountSetUp(store: Store, store': Store, prefs: Prefs, prefs': Prefs,
                         user: User, fields: Fields, writeFailure: Option<Error>)
  {
    prefs' == RememberEmail(prefs, user) &&
    store' == if writeFailure.None? then Put(store, UsersCollection, user.uid, fields) else store
  }

  /** The `(success, error)` that `signUp` completes with. */
  function SignUpCompletion(reply: AuthReply, writeFailure: Option<Error>): (r: (bool, Option<Error>))
    ensures r.0 <==> reply.user.Some? && writeFailure.None?
    ensures r.0 ==> r.1.None?
    ensures reply.user.None? ==> r.1 == reply.error
    ensures reply.user.Some? ==> r.1 == writeFailure
  {
    if reply.user.None? then (false, reply.error) else (writeFailure.None?, writeFailure)
  }

  class FireAuthHelper {
    var user: Option<User>
    /** How many auth-state listeners this helper has registered. */
    var listenerCount: nat

    /** `init`: starts from the user the service already has signed in. */
    constructor (currentUser: Option<User>)
      ensures user == currentUser && listenerCount == 0
    {
      user := currentUser;
      listenerCount := 0;
    }

    method ListenToAuthState()
      modifies this
      ensures listenerCount == old(listenerCount) + 1 && user == old(user)
    {
      listenerCount := listenerCount + 1;
    }

    /** The registered listener: the service reports a new state. */
    method AuthStateDidChange(newUser: Option<User>)
      modifies this
      ensures user == (if listenerCount > 0 then newUser else old(user))
      ensures listenerCount == old(listenerCount)
    {
      if listenerCount > 0 {
        user := newUser;
      }
    }

    /**
     * Account creation, then the profile write. The user is set before the
     * profile is written, so a failed write leaves a signed-in user behind a
     * `(false, error)` completion.
     */
    method SignUp(name: string, email: string, password: string, contactNumber: string, photo: string,
                  reply: AuthReply, db: Firestore, defaults: UserDefaults, writeFailure: Option<Error>)
      returns (success: bool, error: Option<Error>)
      modifies this, db, defaults
      ensures (success, error) == SignUpCompletion(reply, writeFailure)
      ensures listenerCount == old(listenerCount)
      ensures reply.user.None? ==>
        user == old(user) && db.collections == old(db.collections) && defaults.values == old(defaults.values)
      ensures reply.user.Some? ==>
        user == reply.user &&
        AccountSetUp(old(db.collections), db.collections, old(defaults.values), defaults.values,
                     reply.user.value, ProfileFields(name, email, contactNumber, photo), writeFailure)
    {
      if reply.user.None? {
        return false, reply.error;
      }
      user := reply.user;
      defaults.values := RememberEmail(defaults.values, reply.user.value);
      success, error := SaveUserProfile(name, email, contactNumber, photo, db, writeFailure);
    }

    method SignIn(email: string, password: string, reply: AuthReply, defaults: UserDefaults)
      returns (success: bool, error: Option<Error>)
      modifies this, defaults
      ensures success <==> reply.user.Some?
      ensures listenerCount == old(listenerCount)
      ensures !success ==> error == reply.error && user == old(user) && defaults.values == old(defaults.values)
      ensures success ==> error.None? && user == reply.user && defaults.values == RememberEmail(old(defaults.values), reply.user.value)
    {
      if reply.user.None? {
        return false, reply.error;
      }
      user := reply.user;
      defaults.values := RememberEmail(defaults.values, reply.user.value);
      success, error := true, None;
    }

    /** `signOut`: `failure` is what the service's `signOut` throws, if anything. */
    method SignOut(failure: Option<Error>) returns (success: bool, error: Option<Error>)
      modifies this
      ensures success <==> failure.None?
      ensures error == failure
      ensures user == (if success then None else old(user))
      ensures listenerCount == old(listenerCount)
    {
      if failure.Some? {
        return false, failure;
      }
      user := None;
      success, error := true, None;
    }

    /** Writes the profile document, keyed by the signed-in user's uid. */
    method SaveUserProfile(name: string, email: string, contactNumber: string, photo: string,
                           db: Firestore, writeFailure: Option<Error>)
      returns (success: bool, error: Option<Error>)
      modifies db
      ensures user.None? ==> !success && error == Some(NoUserLoggedIn) && db.collections == old(db.collections)
      ensures user.Some? ==> success == writeFailure.None? && error == writeFailure
      ensures user.Some? ==>
        db.collections == if writeFailure.None?
          then Put(old(db.collections), UsersCollection, user.value.uid, ProfileFields(name, email, contactNumber, photo))
          else old(db.collections)
    {
      if user.None? {
        return false, Some(NoUserLoggedIn);
      }
      error := db.SetData(UsersCollection, user.value.uid, ProfileFields(name, email, contactNumber, photo), writeFailure);
      success := error.None?;
    }
  }

  /** The static `shared` slot behind `getInstance`. */
  class FireAuthHelperSingleton {
    var shared: FireAuthHelper?

    constructor ()
      ensures shared == null
    {
      shared := null;
    }

    /** Creates the helper and registers its listener on the first call only. */
    method GetInstance(currentUser: Option<User>) returns (h: FireAuthHelper)
      modifies this
      ensures shared == h
      ensures old(shared) != null ==> h == old(shared)
      ensures old(shared) == null ==> fresh(h) && h.user == currentUser && h.listenerCount == 1
    {
      if shared == null {
        var created := new FireAuthHelper(currentUser);
        created.ListenToAuthState();
        shared := created;
      }
      h := shared;
    }
  }

  /** A profile saved at sign-up reads back, keyed by the new uid, with the fields given. */
  lemma SignUpProfileReadsBack(store: Store, uid: string, name: string, email: string, contactNumber: string, photo: string)
    ensures var after := Put(store, UsersCollection, uid, ProfileFields(name, email, contactNumber, photo));
      Lookup(after, UsersCollection, uid).Some? &&
      DecodeProfile(Document(uid, Lookup(after, UsersCollection, uid).value))
        == Some(UserProfile(Some(uid), photo, name, email, contactNumber))
  {
    ProfileRoundTrip(UserProfile(None, photo, name, email, contactNumber), uid);
  }
}
