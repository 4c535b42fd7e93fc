/** The second client's session (src/auth/AuthContext.tsx): one state record
    with both tokens, the user, a loading flag and an error text, beside the
    two tokens in `localStorage`. Each request's outcome is a parameter;
    `effects` records what the provider did, in order. */
module AuthState {
  import opened Common
  import opened ApiClient

  datatype State = State(accessToken: Option<string>, refreshToken: Option<string>, user: Option<MeUser>,
                         loading: bool, error: Option<string>)

  const SessionExpired := "Session expired. Please log in again."
  const LoginFailed := "Login failed"

  /** The state after sign-out: nothing known, nothing pending, no error. */
  const SignedOut := State(None, None, None, false, None)

  class AuthProvider {
    var state: State
    var storage: map<string, string>
    var effects: seq<Effect>

    /** A user is only ever known together with an access token. */
    ghost predicate Valid()
      reads this
    {
      state.user.Some? ==> state.accessToken.Some?
    }

    /** The initial state: the tokens read from storage, no user, not
        loading, no error. */
    constructor (storage: map<string, string>)
      ensures state == State(GetItem(storage, AccessKey), GetItem(storage, RefreshKey), None, false, None)
      ensures this.storage == storage && effects == []
      ensures Valid()
    {
      state := State(GetItem(storage, AccessKey), GetItem(storage, RefreshKey), None, false, None);
      this.storage := storage;
      effects := [];
    }

    /** `init`, run once on mount: without a (non-empty) token nothing
        happens; otherwise the profile is asked for with it, `me` being the
        answer. A failure resets the state with the session-expired error
        and removes both stored tokens. */
    method Init(me: Outcome<MeUser>)
      requires Valid()
      modifies this
      ensures Valid()
      ensures !Truthy(old(state.accessToken)) ==>
                state == old(state) && storage == old(storage) && effects == old(effects)
      ensures Truthy(old(state.accessToken)) && me.Success? ==>
                && state == old(state).(user := Some(me.value), loading := false, error := None)
                && storage == old(storage)
                && effects == old(effects) + [RequestProfile(old(state.accessToken.value))]
      ensures Truthy(old(state.accessToken)) && me.Failure? ==>
                && state == SignedOut.(error := Some(SessionExpired))
                && storage == ClearTokens(old(storage))
                && effects == old(effects) + [RequestProfile(old(state.accessToken.value)),
                                              RemoveItem(AccessKey), RemoveItem(RefreshKey)]
    {
      if !Truthy(state.accessToken) {
        return;
      }
      var token := state.accessToken.value;
      state := state.(loading := true, error := None);
      effects := effects + [RequestProfile(token)];
      match me {
        case Success(u) =>
          state := state.(user := Some(u), loading := false);
        case Failure(_) =>
          state := SignedOut.(error := Some(SessionExpired));
          storage := ClearTokens(storage);
          effects := effects + [RemoveItem(AccessKey), RemoveItem(RefreshKey)];
      }
    }

    /** `handleLogin`: `tokens` is the sign-in answer and `me` the profile
        answer. Success replaces the whole state. Any failure keeps the
        previous tokens and user and shows the error's message, or "Login
        failed" for an empty one; when only the profile request failed the
        new tokens are already in storage, so storage and memory disagree. */
    method HandleLogin(email: string, password: string, tokens: Outcome<LoginResponse>, me: Outcome<MeUser>)
      requires Valid()
      modifies this
      ensures Valid()
      ensures !state.loading
      ensures tokens.Success? && me.Success? ==>
                && state == State(Some(tokens.value.accessToken), Some(tokens.value.refreshToken),
                                  Some(me.value), false, None)
                && storage == StoreTokens(old(storage), tokens.value)
      ensures tokens.Failure? ==>
                && state == old(state).(loading := false, error := Some(MessageOr(tokens.message, LoginFailed)))
                && storage == old(storage)
                && effects == old(effects) + [RequestLogin(email, password)]
      ensures tokens.Success? && me.Failure? ==>
                && state == old(state).(loading := false, error := Some(MessageOr(me.message, LoginFailed)))
                && storage == StoreTokens(old(storage), tokens.value)
      ensures tokens.Success? ==>
                effects == old(effects) + [RequestLogin(email, password),
                                           SetItem(AccessKey, tokens.value.accessToken),
                                           SetItem(RefreshKey, tokens.value.refreshToken),
                                           RequestProfile(tokens.value.accessToken)]
    {
      state := state.(loading := true, error := None);
      effects := effects + [RequestLogin(email, password)];
      if tokens.Failure? {
        state := state.(loading := false, error := Some(MessageOr(tokens.message, LoginFailed)));
        return;
      }
      var t := tokens.value;
      storage := StoreTokens(storage, t);
      effects := effects + [SetItem(AccessKey, t.accessToken), SetItem(RefreshKey, t.refreshToken),
                            RequestProfile(t.accessToken)];
      match me {
        case Success(u) =>
          state := State(Some(t.accessToken), Some(t.refreshToken), Some(u), false, None);
        case Failure(message) =>
          state := state.(loading := false, error := Some(MessageOr(message, LoginFailed)));
      }
    }

    /** `handleLogout`: both stored tokens and every state field are cleared. */
    method HandleLogout()
      requires Valid()
      modifies this
      ensures Valid()
      ensures state == SignedOut
      ensures storage == ClearTokens(old(storage))
      ensures effects == old(effects) + [RemoveItem(AccessKey), RemoveItem(RefreshKey)]
    {
      storage := ClearTokens(storage);
      effects := effects + [RemoveItem(AccessKey), RemoveItem(RefreshKey)];
      state := SignedOut;
    }
  }
}
