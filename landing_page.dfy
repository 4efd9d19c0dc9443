/** The public landing page: the mount-time session check, the sign-in and
    sign-up modals and what their success callbacks store. */
module Landing {
  import opened Common
  import opened Session

  /** A sign-in that comes back with an empty token sets the flag on screen,
      but the stored session does not pass the mount check, so a reload
      shows the visitor as signed out. */
  lemma EmptyTokenNotRemembered(items: map<string, Item>, user: UserRecord)
    ensures !IsAuthenticated(WithSession(items, user, ""))
    ensures forall token :: token != "" ==> IsAuthenticated(WithSession(items, user, token))
  {
    assert TokenKey != UserKey;
  }

  /** The MorningRise landing component's state hooks. */
  class LandingView {
    var showSignIn: bool
    var showSignUp: bool
    var isAuthenticated: bool
    var loading: bool
    const storage: LocalStorage

    /** The mount effect: signed in exactly when both the user and the token
      are stored, and the loading screen ends either way. */
    constructor (storage: LocalStorage)
      ensures this.storage == storage
      ensures isAuthenticated == IsAuthenticated(storage.items)
      ensures !loading && !showSignIn && !showSignUp
    {
      this.storage := storage;
      showSignIn, showSignUp := false, false;
      var user := storage.GetItem(UserKey);
      var token := storage.GetItem(TokenKey);
      isAuthenticated := user.Some? && user.value != Text("") && token.Some? && token.value != Text("");
      loading := false;
    }

    /** The navbar's "Sign In" button. */
    method OpenSignIn()
      modifies this
      ensures showSignIn && showSignUp == old(showSignUp)
      ensures isAuthenticated == old(isAuthenticated) && loading == old(loading)
    {
      showSignIn := true;
    }

    /** The hero's "Start Your Day" button. */
    method OpenSignUp()
      modifies this
      ensures showSignUp && showSignIn == old(showSignIn)
      ensures isAuthenticated == old(isAuthenticated) && loading == old(loading)
    {
      showSignUp := true;
    }

    /** The sign-in modal's `onClose`. */
    method CloseSignIn()
      modifies this
      ensures !showSignIn && showSignUp == old(showSignUp)
      ensures isAuthenticated == old(isAuthenticated) && loading == old(loading)
    {
      showSignIn := false;
    }

    /** The sign-up modal's `onClose`. */
    method CloseSignUp()
      modifies this
      ensures !showSignUp && showSignIn == old(showSignIn)
      ensures isAuthenticated == old(isAuthenticated) && loading == old(loading)
    {
      showSignUp := false;
    }

    /** The sign-in modal's `onSwitch`: only the sign-up modal is open after. */
    method SwitchToSignUp()
      modifies this
      ensures !showSignIn && showSignUp
      ensures isAuthenticated == old(isAuthenticated) && loading == old(loading)
    {
      showSignIn := false;
      showSignUp := true;
    }

    /** The sign-up modal's `onSwitch`: only the sign-in modal is open after. */
    method SwitchToSignIn()
      modifies this
      ensures showSignIn && !showSignUp
      ensures isAuthenticated == old(isAuthenticated) && loading == old(loading)
    {
      showSignUp := false;
      showSignIn := true;
    }

    /** `handleSignInSuccess`: the user and the token are stored together,
      the visitor is signed in and the sign-in modal closes. */
    method SignInSuccess(user: UserRecord, token: string)
      modifies this, storage
      ensures storage.items == WithSession(old(storage.items), user, token)
      ensures isAuthenticated && !showSignIn && showSignUp == old(showSignUp)
      ensures loading == old(loading)
    {
      StoreSession(storage, user, token);
      isAuthenticated := true;
      showSignIn := false;
    }

    /** `handleSignUpSuccess`: as sign-in, closing the sign-up modal. */
    method SignUpSuccess(user: UserRecord, token: string)
      modifies this, storage
      ensures storage.items == WithSession(old(storage.items), user, token)
      ensures isAuthenticated && !showSignUp && showSignIn == old(showSignIn)
      ensures loading == old(loading)
    {
      StoreSession(storage, user, token);
      isAuthenticated := true;
      showSignUp := false;
    }

    /** `handleLogout`: both keys are removed and the visitor is signed out. */
    method Logout()
      modifies this, storage
      ensures storage.items == WithoutSession(old(storage.items))
      ensures !isAuthenticated && !IsAuthenticated(storage.items)
      ensures showSignIn == old(showSignIn) && showSignUp == old(showSignUp) && loading == old(loading)
    {
      ClearSession(storage);
      SessionLifecycle(old(storage.items), map[], "");
      isAuthenticated := false;
    }
  }
}
