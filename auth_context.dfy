/**
 * The authentication state machine of src/contexts/AuthContext.tsx: the pure
 * reducer, its initial state, and the provider whose handlers dispatch into
 * the reducer-held state. The backend's answers (sign-in errors, the profile
 * fetch, the session) are parameters of the handlers.
 */
module AuthContext {
  import opened Wrappers

  /** The profile fields the model reads; `role` is a free string ("admin", "user", "viewer", ...). */
  datatype UserProfile = UserProfile(id: string, email: string, name: string, role: string)

  datatype AuthState = AuthState(user: Option<UserProfile>, isAuthenticated: bool, isLoading: bool)

  /** The actions the reducer knows, plus any other tag it may be handed. */
  datatype AuthAction =
    | AuthStart
    | AuthSuccess(payload: UserProfile)
    | AuthFailure
    | Logout
    | UpdateUser(payload: UserProfile)
    | Unrecognised(tag: string)

  /** No user, not authenticated, loading. */
  const InitialState := AuthState(None, false, true)

  /** The signed-out state that failure and logout both produce. */
  const SignedOut := AuthState(None, false, false)

  /** Authentication is only gained by AUTH_SUCCESS, loading only begun by AUTH_START. */
  function AuthReducer(state: AuthState, action: AuthAction): (next: AuthState)
    ensures next.isAuthenticated ==> action.AuthSuccess? || state.isAuthenticated
    ensures next.isLoading ==> action.AuthStart? || state.isLoading
    ensures next.user.Some? ==> action.AuthSuccess? || action.UpdateUser? || state.user.Some?
  {
    match action
    case AuthStart => state.(isLoading := true)
    case AuthSuccess(u) => AuthState(Some(u), true, false)
    case AuthFailure => AuthState(None, false, false)
    case Logout => AuthState(None, false, false)
    case UpdateUser(u) => state.(user := Some(u))
    case Unrecognised(_) => state
  }

  /** Authenticated exactly when a user is present. */
  predicate Consistent(s: AuthState) {
    s.isAuthenticated <==> s.user.Some?
  }

  /** The state after a sequence of dispatches. */
  function Run(s: AuthState, actions: seq<AuthAction>): AuthState
    decreases |actions|
  {
    if |actions| == 0 then s else Run(AuthReducer(s, actions[0]), actions[1..])
  }

  /** An update of the user that arrives while nobody is signed in. */
  predicate UpdateWhileSignedOut(s: AuthState, a: AuthAction) {
    a.UpdateUser? && !s.isAuthenticated
  }

  // ---------------------------------------------------------------------------

  /** AUTH_START sets loading and keeps the user and the authentication flag. */
  lemma StartKeepsSession(s: AuthState)
    ensures AuthReducer(s, AuthStart).user == s.user
    ensures AuthReducer(s, AuthStart).isAuthenticated == s.isAuthenticated
    ensures AuthReducer(s, AuthStart).isLoading
  {
  }

  /** AUTH_SUCCESS forgets the prior state entirely. */
  lemma SuccessIgnoresPriorState(s: AuthState, t: AuthState, u: UserProfile)
    ensures AuthReducer(s, AuthSuccess(u)) == AuthReducer(t, AuthSuccess(u))
    ensures AuthReducer(s, AuthSuccess(u)) == AuthState(Some(u), true, false)
  {
  }

  /** AUTH_FAILURE and LOGOUT lead to the same signed-out state from anywhere. */
  lemma FailureIsLogout(s: AuthState, t: AuthState)
    ensures AuthReducer(s, AuthFailure) == AuthReducer(t, Logout) == SignedOut
  {
  }

  /** UPDATE_USER replaces the user and nothing else. */
  lemma UpdateUserOnlyReplacesUser(s: AuthState, u: UserProfile)
    ensures AuthReducer(s, UpdateUser(u)).user == Some(u)
    ensures AuthReducer(s, UpdateUser(u)).isAuthenticated == s.isAuthenticated
    ensures AuthReducer(s, UpdateUser(u)).isLoading == s.isLoading
  {
  }

  /** An unrecognised action returns the state unchanged. */
  lemma UnrecognisedIsIdentity(s: AuthState, tag: string)
    ensures AuthReducer(s, Unrecognised(tag)) == s
  {
  }

  /** Every action but an update while signed out keeps authentication and user in step. */
  lemma ReducerPreservesConsistent(s: AuthState, a: AuthAction)
    requires Consistent(s) && !UpdateWhileSignedOut(s, a)
    ensures Consistent(AuthReducer(s, a))
  {
  }

  /** SUCCESS, FAILURE and LOGOUT re-establish consistency from any state. */
  lemma TerminalActionsRestoreConsistent(s: AuthState, a: AuthAction)
    requires a.AuthSuccess? || a.AuthFailure? || a.Logout?
    ensures Consistent(AuthReducer(s, a))
    ensures !AuthReducer(s, a).isLoading
  {
  }

  /** UPDATE_USER while signed out breaks consistency: a user without authentication. */
  lemma UpdateWhileSignedOutBreaksConsistent(u: UserProfile)
    ensures Consistent(InitialState)
    ensures !Consistent(AuthReducer(InitialState, UpdateUser(u)))
    ensures !Consistent(AuthReducer(AuthReducer(InitialState, Logout), UpdateUser(u)))
  {
  }

  /** From the initial state, any run free of updates while signed out stays consistent. */
  lemma {:induction false} RunStaysConsistent(s: AuthState, actions: seq<AuthAction>)
    requires Consistent(s)
    requires forall i :: 0 <= i < |actions| ==> !UpdateWhileSignedOut(Run(s, actions[..i]), actions[i])
    ensures Consistent(Run(s, actions))
    decreases |actions|
  {
    if |actions| > 0 {
      assert actions[..0] == [];
      ReducerPreservesConsistent(s, actions[0]);
      var s' := AuthReducer(s, actions[0]);
      forall i | 0 <= i < |actions| - 1
        ensures !UpdateWhileSignedOut(Run(s', actions[1..][..i]), actions[1..][i])
      {
        assert actions[..i + 1] == [actions[0]] + actions[1..][..i];
        assert actions[..i + 1][1..] == actions[1..][..i];
      }
      RunStaysConsistent(s', actions[1..]);
    }
  }

  // ---------------------------------------------------------------------------

  /**
   * The provider: the reducer-held state and the handlers that dispatch into
   * it. `Dispatched` records every action, in order, for the contracts.
   */
  class AuthProvider {
    var state: AuthState
    ghost var Dispatched: seq<AuthAction>

    constructor ()
      ensures state == InitialState && Dispatched == []
    {
      state := InitialState;
      Dispatched := [];
    }

    method Dispatch(a: AuthAction)
      modifies this
      ensures state == AuthReducer(old(state), a)
      ensures Dispatched == old(Dispatched) + [a]
    {
      state := AuthReducer(state, a);
      Dispatched := Dispatched + [a];
    }

    /**
     * `signIn`: START, then the password check (`credentialsAccepted`), then the
     * profile fetch (`profile`); any failure dispatches FAILURE and rethrows,
     * reported here as `ok == false`.
     */
    method SignIn(credentialsAccepted: bool, profile: Option<UserProfile>) returns (ok: bool)
      modifies this
      ensures ok <==> credentialsAccepted && profile.Some?
      ensures ok ==> Dispatched == old(Dispatched) + [AuthStart, AuthSuccess(profile.value)]
      ensures !ok ==> Dispatched == old(Dispatched) + [AuthStart, AuthFailure]
      ensures state == if ok then AuthState(profile, true, false) else SignedOut
      ensures Consistent(state) && !state.isLoading
    {
      Dispatch(AuthStart);
      if credentialsAccepted && profile.Some? {
        Dispatch(AuthSuccess(profile.value));
        ok := true;
      } else {
        Dispatch(AuthFailure);
        ok := false;
      }
    }

    /**
     * `signUp`: START, then FAILURE if the backend refuses. On success nothing
     * more is dispatched, so the state stays loading until a session event.
     */
    method SignUp(accepted: bool) returns (ok: bool)
      modifies this
      ensures ok == accepted
      ensures ok ==> Dispatched == old(Dispatched) + [AuthStart]
      ensures ok ==> state == old(state).(isLoading := true)
      ensures !ok ==> Dispatched == old(Dispatched) + [AuthStart, AuthFailure] && state == SignedOut
    {
      Dispatch(AuthStart);
      if !accepted {
        Dispatch(AuthFailure);
      }
      ok := accepted;
    }

    /** `logout`: the backend sign-out is fire-and-forget; LOGOUT is dispatched at once. */
    method Logout()
      modifies this
      ensures state == SignedOut
      ensures Dispatched == old(Dispatched) + [AuthAction.Logout]
    {
      Dispatch(AuthAction.Logout);
    }

    /** `updateProfile`: UPDATE_USER with the stored profile, nothing when the backend fails. */
    method UpdateProfile(updated: Option<UserProfile>) returns (ok: bool)
      modifies this
      ensures ok == updated.Some?
      ensures ok ==> state == old(state).(user := updated) && Dispatched == old(Dispatched) + [UpdateUser(updated.value)]
      ensures !ok ==> state == old(state) && Dispatched == old(Dispatched)
    {
      if updated.Some? {
        Dispatch(UpdateUser(updated.value));
        ok := true;
      } else {
        ok := false;
      }
    }

    /**
     * `initializeAuth`: SUCCESS when a session exists and its profile loads;
     * FAILURE otherwise, including when the session check throws.
     */
    method InitializeAuth(sessionCheckThrew: bool, hasSessionUser: bool, profile: Option<UserProfile>)
      modifies this
      ensures !sessionCheckThrew && hasSessionUser && profile.Some? ==>
        state == AuthState(profile, true, false) && Dispatched == old(Dispatched) + [AuthSuccess(profile.value)]
      ensures !(!sessionCheckThrew && hasSessionUser && profile.Some?) ==>
        state == SignedOut && Dispatched == old(Dispatched) + [AuthFailure]
      ensures Consistent(state) && !state.isLoading
    {
      if !sessionCheckThrew && hasSessionUser && profile.Some? {
        Dispatch(AuthSuccess(profile.value));
      } else {
        Dispatch(AuthFailure);
      }
    }

    /**
     * The session listener: SIGNED_IN with a user loads the profile, SIGNED_OUT
     * logs out, other events are ignored. A profile fetch that throws escapes
     * the listener before anything is dispatched.
     */
    method OnAuthStateChange(event: string, hasSessionUser: bool, profileFetchThrew: bool, profile: Option<UserProfile>)
      modifies this
      ensures event == "SIGNED_IN" && hasSessionUser && profileFetchThrew ==>
        state == old(state) && Dispatched == old(Dispatched)
      ensures event == "SIGNED_IN" && hasSessionUser && !profileFetchThrew && profile.Some? ==>
        state == AuthState(profile, true, false) && Dispatched == old(Dispatched) + [AuthSuccess(profile.value)]
      ensures event == "SIGNED_IN" && hasSessionUser && !profileFetchThrew && profile.None? ==>
        state == SignedOut && Dispatched == old(Dispatched) + [AuthFailure]
      ensures !(event == "SIGNED_IN" && hasSessionUser) && event == "SIGNED_OUT" ==>
        state == SignedOut && Dispatched == old(Dispatched) + [AuthAction.Logout]
      ensures !(event == "SIGNED_IN" && hasSessionUser) && event != "SIGNED_OUT" ==>
        state == old(state) && Dispatched == old(Dispatched)
    {
      if event == "SIGNED_IN" && hasSessionUser {
        if profileFetchThrew {
        } else if profile.Some? {
          Dispatch(AuthSuccess(profile.value));
        } else {
          Dispatch(AuthFailure);
        }
      } else if event == "SIGNED_OUT" {
        Dispatch(AuthAction.Logout);
      }
    }
  }
}
