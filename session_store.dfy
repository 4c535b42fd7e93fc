/** The web client's session (health-republic-frontend/src/auth/AuthContext.tsx):
    the signed-in user, the access token and the profile-loading flag, kept
    in step with the two tokens in `localStorage`. Each request's outcome is
    a parameter; `effects` records what the provider did, in order. */
module SessionStore {
  import opened Common
  import opened ApiClient

  /** The effects of a successful sign-in up to the profile request: both
      tokens are stored before the profile is asked for. */
  function SignIn(email: string, password: string, t: LoginResponse): (r: seq<Effect>)
    ensures |r| == 4 && r[0] == RequestLogin(email, password) && r[3] == RequestProfile(t.accessToken)
    ensures r[1..3] == [SetItem(AccessKey, t.accessToken), SetItem(RefreshKey, t.refreshToken)]
  {
    [RequestLogin(email, password), SetItem(AccessKey, t.accessToken), SetItem(RefreshKey, t.refreshToken),
     RequestProfile(t.accessToken)]
  }

  class AuthProvider {
    var user: Option<MeUser>
    var accessToken: Option<string>
    var isLoadingProfile: bool
    var storage: map<string, string>
    var effects: seq<Effect>

    /** A user is only ever known together with a token, and a token in
        memory is the one in storage. */
    ghost predicate Valid()
      reads this
    {
      && (user.Some? ==> accessToken.Some?)
      && (accessToken.Some? ==> GetItem(storage, AccessKey) == accessToken)
    }

    /** The provider as first rendered: no user, no token, loading. */
    constructor (storage: map<string, string>)
      ensures user.None? && accessToken.None? && isLoadingProfile
      ensures this.storage == storage && effects == []
      ensures Valid()
    {
      user := None;
      accessToken := None;
      isLoadingProfile := true;
      this.storage := storage;
      effects := [];
    }

    /** Clears both stored tokens and forgets the token and the user. */
    method SignOut()
      modifies this
      ensures storage == ClearTokens(old(storage))
      ensures effects == old(effects) + [RemoveItem(AccessKey), RemoveItem(RefreshKey)]
      ensures accessToken.None? && user.None? && isLoadingProfile == old(isLoadingProfile)
    {
      storage := ClearTokens(storage);
      effects := effects + [RemoveItem(AccessKey), RemoveItem(RefreshKey)];
      accessToken := None;
      user := None;
    }

    /** The mount effect: with no (or an empty) stored access token it only
        stops loading; otherwise it adopts the token and asks for the
        profile, `me` being the answer. A failure clears the session. */
    method Hydrate(me: Outcome<MeUser>)
      requires Valid()
      modifies this
      ensures Valid()
      ensures !isLoadingProfile
      ensures !Truthy(GetItem(old(storage), AccessKey)) ==>
                && user == old(user) && accessToken == old(accessToken)
                && storage == old(storage) && effects == old(effects)
      ensures Truthy(GetItem(old(storage), AccessKey)) && me.Success? ==>
                && accessToken == Some(old(storage)[AccessKey]) && user == Some(me.value)
                && storage == old(storage)
                && effects == old(effects) + [RequestProfile(old(storage)[AccessKey])]
      ensures Truthy(GetItem(old(storage), AccessKey)) && me.Failure? ==>
                && accessToken.None? && user.None?
                && storage == ClearTokens(old(storage))
                && effects == old(effects) + [RequestProfile(old(storage)[AccessKey]),
                                              RemoveItem(AccessKey), RemoveItem(RefreshKey)]
    {
      var stored := GetItem(storage, AccessKey);
      if !Truthy(stored) {
        isLoadingProfile := false;
        return;
      }
      accessToken := stored;
      effects := effects + [RequestProfile(stored.value)];
      match me {
        case Success(u) =>
          user := Some(u);
        case Failure(_) =>
          SignOut();
      }
      isLoadingProfile := false;
    }

    /** `login`: loading starts; `tokens` is the sign-in answer and `me` the
        profile answer. A failed sign-in throws before anything is stored,
        and loading then stays on. Otherwise both tokens are stored before
        the profile is asked for; a failed profile request clears the
        session and rethrows. Returns the error thrown, if any. */
    method Login(email: string, password: string, tokens: Outcome<LoginResponse>, me: Outcome<MeUser>)
      returns (thrown: Option<string>)
      requires Valid()
      modifies this
      ensures Valid()
      ensures tokens.Failure? ==>
                && thrown == Some(tokens.message) && isLoadingProfile
                && user == old(user) && accessToken == old(accessToken) && storage == old(storage)
                && effects == old(effects) + [RequestLogin(email, password)]
      ensures tokens.Success? ==> !isLoadingProfile
      ensures tokens.Success? && me.Success? ==>
                && thrown.None?
                && user == Some(me.value) && accessToken == Some(tokens.value.accessToken)
                && storage == StoreTokens(old(storage), tokens.value)
                && effects == old(effects) + SignIn(email, password, tokens.value) + [Navigate("/dashboard")]
      ensures tokens.Success? && me.Failure? ==>
                && thrown == Some(me.message)
                && user.None? && accessToken.None?
                && storage == ClearTokens(StoreTokens(old(storage), tokens.value))
                && effects == old(effects) + SignIn(email, password, tokens.value)
                                           + [RemoveItem(AccessKey), RemoveItem(RefreshKey)]
    {
      isLoadingProfile := true;
      if tokens.Failure? {
        effects := effects + [RequestLogin(email, password)];
        return Some(tokens.message);
      }
      var t := tokens.value;
      storage := StoreTokens(storage, t);
      accessToken := Some(t.accessToken);
      effects := effects + SignIn(email, password, t);
      match me {
        case Success(u) =>
          user := Some(u);
          effects := effects + [Navigate("/dashboard")];
          thrown := None;
        case Failure(message) =>
          SignOut();
          thrown := Some(message);
      }
      isLoadingProfile := false;
    }

    /** `logout`: clears the session and goes to the sign-in page. */
    method Logout()
      requires Valid()
      modifies this
      ensures Valid()
      ensures user.None? && accessToken.None? && isLoadingProfile == old(isLoadingProfile)
      ensures storage == ClearTokens(old(storage))
      ensures effects == old(effects) + [RemoveItem(AccessKey), RemoveItem(RefreshKey), Navigate("/login")]
    {
      SignOut();
      effects := effects + [Navigate("/login")];
    }
  }
}
