/** The session provider: the current user and a loading flag, the
    `login`/`logout` actions, the `checkAccess` helper, and the role and
    verification flag derived for the rest of the application. */
module Auth {
  import opened Wrappers
  import opened Types
  import opened RoleGate

  /** The demo user every load and login installs. */
  const MockUser: User := User(
    "doc-123", "Dr. Jane Smith", "jane.smith@hospital.com", Doctor, true,
    Some("MD-12345"), Some(Verified))

  /** `user?.role || 'unauthorized'`. */
  function RoleOf(user: Option<User>): (r: Role)
    ensures user.None? ==> r == Unauthorized
    ensures user.Some? ==> r == user.value.role
  {
    match user
    case Some(u) => u.role
    case None => Unauthorized
  }

  /** `user?.isVerified || false`. */
  predicate IsVerifiedOf(user: Option<User>) {
    user.Some? && user.value.isVerified
  }

  /** `checkAccess(requiredRoles)`: false without a user, otherwise role
      membership alone. */
  predicate CheckAccess(user: Option<User>, requiredRoles: seq<Role>) {
    match user
    case None => false
    case Some(u) => u.role in requiredRoles
  }

  /** Without a user nothing is accessible through `checkAccess`. */
  lemma NoUserNoAccess(requiredRoles: seq<Role>)
    ensures !CheckAccess(None, requiredRoles)
    ensures RoleOf(None) == Unauthorized && !IsVerifiedOf(None)
  {
  }

  /** `checkAccess` never consults the verification flag. */
  lemma CheckAccessIgnoresVerification(u: User, requiredRoles: seq<Role>)
    ensures CheckAccess(Some(u.(isVerified := true)), requiredRoles)
        == CheckAccess(Some(u.(isVerified := false)), requiredRoles)
    ensures CheckAccess(Some(u), requiredRoles) <==> u.role in requiredRoles
  {
  }

  /** The render gate (fed the derived role and flag) and `checkAccess`
      disagree in exactly two situations: an anonymous visitor where
      `'unauthorized'` is allowed and verification is not required, and an
      unverified user with an allowed role where verification is required. */
  lemma GateDisagreesWithCheckAccess(user: Option<User>, allowed: seq<Role>, requireVerified: bool)
    ensures (CanRender(RoleOf(user), IsVerifiedOf(user), allowed, requireVerified) != CheckAccess(user, allowed))
        <==> ((user.None? && Unauthorized in allowed && !requireVerified)
              || (user.Some? && requireVerified && !user.value.isVerified && user.value.role in allowed))
  {
  }

  /** The provider's mutable state. */
  class AuthProvider {
    var user: Option<User>
    var isLoading: bool

    /** Initially no user, and loading. */
    constructor ()
      ensures user == None && isLoading
    {
      user := None;
      isLoading := true;
    }

    /** The mount effect, once its delay has elapsed: the demo user is installed. */
    method LoadUser()
      modifies this
      ensures user == Some(MockUser) && !isLoading
    {
      user := Some(MockUser);
      isLoading := false;
    }

    /** `login` up to its awaited delay: loading starts, and the current
        user (if any) stays signed in meanwhile. The credentials are never
        looked at. */
    method BeginLogin(email: string, password: string)
      modifies this
      ensures isLoading && user == old(user)
    {
      isLoading := true;
    }

    /** The rest of `login`: whatever the credentials, it ends with the demo
        user, a verified doctor, and not loading. */
    method FinishLogin()
      modifies this
      ensures user == Some(MockUser) && !isLoading
      ensures RoleOf(user) == Doctor && IsVerifiedOf(user)
    {
      user := Some(MockUser);
      isLoading := false;
    }

    /** `logout`: the user is gone, so the role is `'unauthorized'` and every
        `checkAccess` fails; the loading flag is untouched. */
    method Logout()
      modifies this
      ensures user == None && isLoading == old(isLoading)
      ensures RoleOf(user) == Unauthorized && !IsVerifiedOf(user)
      ensures forall rs :: !CheckAccess(user, rs)
    {
      user := None;
    }
  }
}
