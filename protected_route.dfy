/** The route guard (src/components/routing/ProtectedRoute.jsx): authenticate first, then check
    the required role, else render the protected page. */
module ProtectedRoute {
  import opened Js

  /** What the guard renders: a redirect to a location, or the protected children. */
  datatype Route = Redirect(to: string) | Render

  const LoginPrefix := "/login?redirect="
  const RoleFallback := "/overview"

  /** `encodeURIComponent`. */
  type Encoder = string -> string

  /** The guard's decision. `role` is `user?.role` (`None` when there is no user or it has no
      role); `requireRole` is the prop, `None` when it is not given. */
  function Decide(isAuthenticated: bool, role: Option<string>, requireRole: Option<string>,
                  pathname: string, search: string, encode: Encoder): (r: Route)
    ensures !isAuthenticated ==> r == Redirect(LoginPrefix + encode(pathname + search))
    ensures isAuthenticated && requireRole.Some? && requireRole.value != "" && role != requireRole ==>
      r == Redirect(RoleFallback)
  {
    if !isAuthenticated then Redirect(LoginPrefix + encode(pathname + search))
    else if requireRole.Some? && requireRole.value != "" && role != requireRole then Redirect(RoleFallback)
    else Render
  }

  /** The children are rendered exactly when the user is signed in and either no role is
      required or the user holds it. */
  lemma RenderIff(isAuthenticated: bool, role: Option<string>, requireRole: Option<string>,
                  pathname: string, search: string, encode: Encoder)
    ensures Decide(isAuthenticated, role, requireRole, pathname, search, encode) == Render <==>
      isAuthenticated && (requireRole.None? || requireRole.value == "" || role == requireRole)
  {
  }

  /** For a signed-out user the role plays no part: authentication is checked first. */
  lemma AuthenticationFirst(role: Option<string>, other: Option<string>, requireRole: Option<string>,
                            pathname: string, search: string, encode: Encoder)
    ensures Decide(false, role, requireRole, pathname, search, encode) ==
            Decide(false, other, requireRole, pathname, search, encode)
  {
  }

  /** `decodeURIComponent` undoes `encodeURIComponent`. */
  ghost predicate Decodes(decode: string -> string, encode: Encoder) {
    forall s {:trigger encode(s)} :: decode(encode(s)) == s
  }

  /** The login redirect carries the page the user asked for: decoding what follows the prefix
      gives back the path and query. */
  lemma RedirectCarriesLocation(pathname: string, search: string, encode: Encoder, decode: string -> string)
    requires Decodes(decode, encode)
    ensures var r := Decide(false, None, None, pathname, search, encode);
      && r.Redirect? && |LoginPrefix| <= |r.to| && r.to[..|LoginPrefix|] == LoginPrefix
      && decode(r.to[|LoginPrefix|..]) == pathname + search
  {
    var r := Decide(false, None, None, pathname, search, encode);
    assert r.to[|LoginPrefix|..] == encode(pathname + search);
  }
}
