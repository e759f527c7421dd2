/** The session gate: the provider that binds the signed-in identity to its
    profile document, and the admin flag derived from that profile. */
module Auth {
  import opened Js
  import opened Types

  /** How the read of `users/{uid}` ended. */
  datatype ProfileFetch = Found(profile: UserProfile) | Missing | FetchFailed

  /** What the provider hands to every consumer of the context. */
  datatype AuthContext = AuthContext(user: Option<AuthUser>, userProfile: Option<UserProfile>, loading: bool)

  /** The states a consumer can tell apart. */
  datatype SessionState = Unknown | Unauthenticated | AuthenticatedNoProfile | Authenticated(profile: UserProfile)

  /** The "basic validation" of a fetched profile: uid and email both truthy. */
  predicate HasEssentialFields(p: UserProfile) {
    p.uid != "" && Truthy(p.email)
  }

  /** The profile the callback ends with for an auth event and the outcome
      of the profile read (the read only happens for a signed-in user). */
  function ResolvedProfile(firebaseUser: Option<AuthUser>, fetched: ProfileFetch): (p: Option<UserProfile>)
    ensures p.Some? <==> firebaseUser.Some? && fetched.Found? && HasEssentialFields(fetched.profile)
    ensures p.Some? ==> p.value == fetched.profile
  {
    if firebaseUser.None? then None
    else match fetched
      case Found(profile) => if HasEssentialFields(profile) then Some(profile) else None
      case Missing => None
      case FetchFailed => None
  }

  /** `!!userProfile && userProfile.role === 'admin'` */
  predicate IsAdmin(userProfile: Option<UserProfile>) {
    userProfile.Some? && userProfile.value.role == Admin
  }

  function State(ctx: AuthContext): (s: SessionState)
    ensures s.Unknown? <==> ctx.loading
    ensures s.Authenticated? <==> !ctx.loading && ctx.user.Some? && ctx.userProfile.Some?
    ensures s.Authenticated? ==> s.profile == ctx.userProfile.value
  {
    if ctx.loading then Unknown
    else if ctx.user.None? then Unauthenticated
    else if ctx.userProfile.None? then AuthenticatedNoProfile
    else Authenticated(ctx.userProfile.value)
  }

  /** Whatever the read returns, an admin flag after an auth event means a
      signed-in user whose fetched profile is valid and has role admin. */
  lemma AdminOnlyFromValidAdminProfile(firebaseUser: Option<AuthUser>, fetched: ProfileFetch)
    ensures IsAdmin(ResolvedProfile(firebaseUser, fetched)) <==>
      firebaseUser.Some? && fetched.Found? && HasEssentialFields(fetched.profile) && fetched.profile.role == Admin
  {
  }

  /** A sign-out event never leaves a profile or an admin flag behind. */
  lemma SignOutClearsProfile(fetched: ProfileFetch)
    ensures ResolvedProfile(None, fetched) == None
    ensures !IsAdmin(ResolvedProfile(None, fetched))
  {
  }

  /** The provider's state and its auth-state-change callback. */
  class AuthProvider {
    var user: Option<AuthUser>
    var userProfile: Option<UserProfile>
    var loading: bool

    constructor ()
      ensures user == None && userProfile == None && loading
    {
      user := None;
      userProfile := None;
      loading := true;
    }

    function Context(): (ctx: AuthContext)
      reads this
      ensures ctx.user == user && ctx.userProfile == userProfile && ctx.loading == loading
    {
      AuthContext(user, userProfile, loading)
    }

    /** The `onAuthStateChanged` callback: record the identity, resolve the
        profile (read only for a signed-in user), then stop loading. */
    method OnAuthStateChanged(firebaseUser: Option<AuthUser>, fetched: ProfileFetch)
      modifies this
      ensures user == firebaseUser
      ensures userProfile == ResolvedProfile(firebaseUser, fetched)
      ensures !loading
      ensures State(Context()) != Unknown
      ensures firebaseUser.None? ==> State(Context()) == Unauthenticated
      ensures firebaseUser.Some? && userProfile.None? ==> State(Context()) == AuthenticatedNoProfile
    {
      user := firebaseUser;
      if firebaseUser.Some? {
        match fetched {
          case Found(profileData) =>
            if !(profileData.uid != "" && Truthy(profileData.email)) {
              userProfile := None;
            } else {
              userProfile := Some(profileData);
            }
          case Missing =>
            userProfile := None;
          case FetchFailed =>
            userProfile := None;
        }
      } else {
        userProfile := None;
      }
      loading := false;
    }
  }
}
