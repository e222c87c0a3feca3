/**
 * The sign-in screen: the Sign In button around `FireAuthHelper.SignIn`, and
 * the remember-me credentials it keeps in the preferences store.
 */
module SignInScreen {
  import opened Wrappers
  import opened Backend
  import opened FireAuth
  import opened Navigation

  const KeySavedEmail := "savedEmail"
  const KeySavedPassword := "savedPassword"
  const KeyRememberMe := "RememberMe"

  const EmptyCredentials := "Email and password cannot be empty"

  /** `saveLoginCredentials` */
  function WithCredentials(prefs: Prefs, email: string, password: string): (r: Prefs)
    ensures KeySavedEmail in r && r[KeySavedEmail] == PrefString(email)
    ensures KeySavedPassword in r && r[KeySavedPassword] == PrefString(password)
    ensures forall k :: k != KeySavedEmail && k != KeySavedPassword ==>
      (k in r <==> k in prefs) && (k in r ==> r[k] == prefs[k])
  {
    prefs[KeySavedEmail := PrefString(email)][KeySavedPassword := PrefString(password)]
  }

  /** `clearLoginCredentials` */
  function WithoutCredentials(prefs: Prefs): (r: Prefs)
    ensures KeySavedEmail !in r && KeySavedPassword !in r
    ensures forall k :: k != KeySavedEmail && k != KeySavedPassword ==>
      (k in r <==> k in prefs) && (k in r ==> r[k] == prefs[k])
  {
    prefs - {KeySavedEmail, KeySavedPassword}
  }

  /** The credentials `onAppear` restores: both saved strings, or nothing. */
  function SavedCredentials(prefs: Prefs): (r: Option<(string, string)>)
    ensures r.Some? <==> StringFor(prefs, KeySavedEmail).Some? && StringFor(prefs, KeySavedPassword).Some?
  {
    match (StringFor(prefs, KeySavedEmail), StringFor(prefs, KeySavedPassword))
    case (Some(e), Some(p)) => Some((e, p))
    case _ => None
  }

  /** What is saved is what is restored. */
  lemma SavedCredentialsRestored(prefs: Prefs, email: string, password: string)
    ensures SavedCredentials(WithCredentials(prefs, email, password)) == Some((email, password))
  {
  }

  /** After clearing, neither credential is present and nothing is restored. */
  lemma ClearedCredentialsGone(prefs: Prefs)
    ensures KeySavedEmail !in WithoutCredentials(prefs) && KeySavedPassword !in WithoutCredentials(prefs)
    ensures SavedCredentials(WithoutCredentials(prefs)).None?
  {
  }

  /** Clearing undoes saving: saving then clearing equals clearing alone, whatever was saved. */
  lemma ClearUndoesSave(prefs: Prefs, email: string, password: string)
    ensures WithoutCredentials(WithCredentials(prefs, email, password)) == WithoutCredentials(prefs)
  {
    var lhs := WithoutCredentials(WithCredentials(prefs, email, password));
    var rhs := WithoutCredentials(prefs);
    assert forall k :: k in lhs <==> k in rhs;
    assert forall k :: k in lhs ==> lhs[k] == rhs[k];
  }

  /** The remember-me toggle's `onChange` handler, as a change of preferences. */
  function RememberMeEffect(prefs: Prefs, newValue: bool, email: string, password: string): (r: Prefs)
    ensures KeyRememberMe in r && r[KeyRememberMe] == PrefBool(newValue)
    ensures newValue ==> SavedCredentials(r) == Some((email, password))
    ensures !newValue ==> KeySavedEmail !in r && KeySavedPassword !in r
    ensures forall k :: k != KeyRememberMe && k != KeySavedEmail && k != KeySavedPassword ==>
      (k in r <==> k in prefs) && (k in r ==> r[k] == prefs[k])
  {
    var credentials := if newValue then WithCredentials(prefs, email, password) else WithoutCredentials(prefs);
    credentials[KeyRememberMe := PrefBool(newValue)]
  }

  class SignInView {
    var email: string
    var password: string
    var rememberMe: bool
    var showAlert: bool
    var alertMessage: string
    var rootScreen: RootView

    constructor (root: RootView)
      ensures email == "" && password == "" && !rememberMe && !showAlert && alertMessage == "" && rootScreen == root
    {
      email, password, rememberMe := "", "", false;
      showAlert, alertMessage, rootScreen := false, "", root;
    }

    method SaveLoginCredentials(email: string, password: string, defaults: UserDefaults)
      modifies defaults
      ensures defaults.values == WithCredentials(old(defaults.values), email, password)
    {
      defaults.Set(KeySavedEmail, Some(PrefString(email)));
      defaults.Set(KeySavedPassword, Some(PrefString(password)));
    }

    method ClearLoginCredentials(defaults: UserDefaults)
      modifies defaults
      ensures defaults.values == WithoutCredentials(old(defaults.values))
    {
      defaults.RemoveObject(KeySavedEmail);
      defaults.RemoveObject(KeySavedPassword);
    }

    /** The toggle is switched to `newValue`; its `onChange` runs when the value changes. */
    method SetRememberMe(newValue: bool, defaults: UserDefaults)
      modifies this`rememberMe, defaults
      ensures rememberMe == newValue
      ensures defaults.values ==
        if newValue != old(rememberMe) then RememberMeEffect(old(defaults.values), newValue, email, password)
        else old(defaults.values)
    {
      if newValue == rememberMe {
        return;
      }
      rememberMe := newValue;
      if newValue {
        SaveLoginCredentials(email, password, defaults);
      } else {
        ClearLoginCredentials(defaults);
      }
      defaults.Set(KeyRememberMe, Some(PrefBool(newValue)));
    }

    /** `onAppear`: restores both credentials and turns remember-me on, or changes nothing. */
    method OnAppear(defaults: UserDefaults)
      modifies this`email, this`password, this`rememberMe, defaults
      ensures SavedCredentials(old(defaults.values)).None? ==>
        email == old(email) && password == old(password) && rememberMe == old(rememberMe) &&
        defaults.values == old(defaults.values)
      ensures SavedCredentials(old(defaults.values)).Some? ==>
        (email, password) == SavedCredentials(old(defaults.values)).value && rememberMe &&
        defaults.values == if old(rememberMe) then old(defaults.values)
          else RememberMeEffect(old(defaults.values), true, email, password)
    {
      var saved := SavedCredentials(defaults.values);
      if saved.None? {
        return;
      }
      email, password := saved.value.0, saved.value.1;
      SetRememberMe(true, defaults);
    }

    /**
     * A tap on Sign In. Empty fields only raise an alert. Otherwise `signIn`
     * runs; on success the home screen shows and the credentials are saved or
     * cleared as remember-me says, on failure the error is shown.
     */
    method SignInTapped(auth: FireAuthHelper, defaults: UserDefaults, reply: AuthReply)
      modifies this`rootScreen, this`alertMessage, this`showAlert, auth, defaults
      ensures auth.listenerCount == old(auth.listenerCount)
      ensures email == "" || password == "" ==>
        showAlert && alertMessage == EmptyCredentials && rootScreen == old(rootScreen) &&
        auth.user == old(auth.user) && defaults.values == old(defaults.values)
      ensures email != "" && password != "" && reply.user.None? ==>
        showAlert && alertMessage == ErrorText(reply.error, "Sign in failed") && rootScreen == old(rootScreen) &&
        auth.user == old(auth.user) && defaults.values == old(defaults.values)
      ensures email != "" && password != "" && reply.user.Some? ==>
        rootScreen == Home && auth.user == reply.user &&
        showAlert == old(showAlert) && alertMessage == old(alertMessage) &&
        var remembered := RememberEmail(old(defaults.values), reply.user.value);
        defaults.values == if rememberMe then WithCredentials(remembered, email, password) else WithoutCredentials(remembered)
    {
      if email != "" && password != "" {
        var success, error := auth.SignIn(email, password, reply, defaults);
        if success {
          rootScreen := Home;
          if rememberMe {
            SaveLoginCredentials(email, password, defaults);
          } else {
            ClearLoginCredentials(defaults);
          }
        } else {
          alertMessage := ErrorText(error, "Sign in failed");
          showAlert := true;
        }
      } else {
        alertMessage := EmptyCredentials;
        showAlert := true;
      }
    }
  }
}
