/** The render gate: protected content is shown when the current role is
    allowed and, if verification is required, the actor is verified;
    otherwise the fallback is shown. */
module RoleGate {
  import opened Wrappers
  import opened Types

  /** `hasAccess && passesVerification`. */
  predicate CanRender(role: Role, isVerified: bool, allowedRoles: seq<Role>, requireVerified: bool) {
    var hasAccess := role in allowedRoles;
    var passesVerification := !requireVerified || isVerified;
    hasAccess && passesVerification
  }

  /** What the gate renders: the children, or the fallback (`None` is
      "nothing rendered"). */
  function Render<N>(role: Role, isVerified: bool, allowedRoles: seq<Role>, requireVerified: bool,
                     children: N, fallback: Option<N>): (shown: Option<N>)
    ensures CanRender(role, isVerified, allowedRoles, requireVerified) ==> shown == Some(children)
    ensures !CanRender(role, isVerified, allowedRoles, requireVerified) ==> shown == fallback
  {
    if CanRender(role, isVerified, allowedRoles, requireVerified) then Some(children) else fallback
  }

  /** The gate with its defaults: `requireVerified = false`, `fallback = null`. */
  function RenderWithDefaults<N>(role: Role, isVerified: bool, allowedRoles: seq<Role>, children: N): (shown: Option<N>)
    ensures shown == (if role in allowedRoles then Some(children) else None)
  {
    Render(role, isVerified, allowedRoles, false, children, None)
  }

  /** By default verification is ignored: the verified and the unverified
      actor see the same thing. */
  lemma DefaultIgnoresVerification<N>(role: Role, allowedRoles: seq<Role>, children: N)
    ensures RenderWithDefaults(role, true, allowedRoles, children)
         == RenderWithDefaults(role, false, allowedRoles, children)
  {
  }

  /** With `requireVerified`, an unverified actor is denied whatever its role. */
  lemma UnverifiedDenied(role: Role, allowedRoles: seq<Role>)
    ensures !CanRender(role, false, allowedRoles, true)
  {
  }

  /** A verified actor under `requireVerified` is let in exactly by role. */
  lemma VerifiedDecidedByRole(role: Role, allowedRoles: seq<Role>)
    ensures CanRender(role, true, allowedRoles, true) <==> role in allowedRoles
  {
  }

  /** An empty list of allowed roles never grants access. */
  lemma EmptyAllowedDenies(role: Role, isVerified: bool, requireVerified: bool)
    ensures !CanRender(role, isVerified, [], requireVerified)
  {
  }

  /** Allowing more roles never revokes access. */
  lemma MoreRolesKeepAccess(role: Role, isVerified: bool, allowed: seq<Role>, more: seq<Role>, requireVerified: bool)
    requires forall r :: r in allowed ==> r in more
    requires CanRender(role, isVerified, allowed, requireVerified)
    ensures CanRender(role, isVerified, more, requireVerified)
  {
  }
}
