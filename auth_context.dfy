/** `authReducer` (src/contexts/AuthContext.jsx): who is signed in. */
module AuthContext {
  import opened Js

  datatype AuthState = AuthState(currentUser: Option<Record>, isAuthenticated: bool, loading: bool)

  /** The dispatched actions by `type`; `Unknown` stands for any other type. */
  datatype AuthAction =
    | Login(user: Record)
    | Logout
    | UpdateProfile(patch: Record)
    | SetLoading(flag: bool)
    | Unknown(kind: string)

  const InitialState := AuthState(None, false, true)

  /** `{...currentUser, ...patch}`; spreading `null` adds nothing. */
  function Overlay(user: Option<Record>, patch: Record): Record
  {
    (if user.Some? then user.value else map[]) + patch
  }

  /** `authReducer(state, action)`. */
  function Reduce(s: AuthState, a: AuthAction): (t: AuthState)
    ensures a.Login? ==> t.currentUser == Some(a.user) && t.isAuthenticated && !t.loading
    ensures a.Logout? ==> t.currentUser.None? && !t.isAuthenticated && !t.loading
    ensures a.UpdateProfile? ==>
              t.isAuthenticated == s.isAuthenticated && t.loading == s.loading && t.currentUser.Some?
              && forall f :: Get(t.currentUser.value, f) ==
                   if f in a.patch then Some(a.patch[f])
                   else if s.currentUser.Some? then Get(s.currentUser.value, f) else None
    ensures a.SetLoading? ==> t.currentUser == s.currentUser && t.isAuthenticated == s.isAuthenticated && t.loading == a.flag
    ensures a.Unknown? ==> t == s
  {
    match a
    case Login(u) => s.(currentUser := Some(u), isAuthenticated := true, loading := false)
    case Logout => s.(currentUser := None, isAuthenticated := false, loading := false)
    case UpdateProfile(p) => s.(currentUser := Some(Overlay(s.currentUser, p)))
    case SetLoading(flag) => s.(loading := flag)
    case Unknown(_) => s
  }

  /** Signing out after signing in forgets the user, whatever came before. */
  lemma LogoutForgets(s: AuthState, u: Record)
    ensures Reduce(Reduce(s, Login(u)), Logout) == AuthState(None, false, false)
  {
  }

  /** A profile update while signed out still sets a user object, made of the
      patch alone, without marking anyone authenticated. */
  lemma ProfileWhileSignedOut(s: AuthState, p: Record)
    ensures Reduce(Reduce(s, Logout), UpdateProfile(p)) == AuthState(Some(p), false, false)
  {
    assert map[] + p == p;
  }

  /** Updating a profile with fields it already holds changes nothing. */
  lemma ProfileSameFields(s: AuthState, p: Record)
    requires s.currentUser.Some? && forall f :: f in p ==> f in s.currentUser.value && s.currentUser.value[f] == p[f]
    ensures Reduce(s, UpdateProfile(p)) == s
  {
    var u := s.currentUser.value;
    var o := Overlay(s.currentUser, p);
    assert o.Keys == u.Keys;
    assert forall f :: f in o ==> o[f] == u[f];
    assert o == u;
  }
}
