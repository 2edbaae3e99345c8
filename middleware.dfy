/**
 * The request gate of src/middleware.ts: an ordered chain of early returns
 * over the path, the verb, the access-token cookie and the verified
 * session's role. The token check itself (a signed JWT) is the parameter
 * `verify`; on success the verified session is forwarded to the handlers in
 * the `x-user` request header.
 */
module RequestGate {
  import opened Wrappers
  import opened Types
  import opened Text
  import Http

  const PublicPaths: seq<string> := ["/login", "/api/auth/login", "/api/auth/logout", "/api/auth/refresh"]
  const PublicApiGetPaths: seq<string> := ["/api/unidades", "/api/puestos"]
  const StaticPrefixes: seq<string> := ["/_next", "/static", "/manifest", "/sw", "/workbox", "/icons"]
  const StaticExtensions: seq<string> :=
    ["ico", "png", "jpg", "jpeg", "svg", "css", "js", "woff", "woff2", "ttf", "eot"]

  const MsgTokenInvalido := "Token inválido o expirado"
  const MsgSinPermisos := "No tiene permisos para acceder a este recurso"

  /** A request header value: plain text, or the JSON of a verified session. */
  datatype Header = Text(value: string) | SessionJson(user: UserSession)

  type Headers = map<string, Header>

  datatype Decision =
    | Next(headers: Headers)                  // the request goes on, carrying these headers
    | JsonError(status: int, error: string)   // answered here with a JSON error
    | Redirect(location: string)

  predicate StartsWithAny(p: string, prefixes: seq<string>) {
    exists i | 0 <= i < |prefixes| :: StartsWith(p, prefixes[i])
  }

  /** `isPublicPath`. */
  predicate IsPublicPath(p: string) {
    StartsWithAny(p, PublicPaths)
  }

  /** `isPublicApiGetPath` (`verb` is the HTTP method). */
  predicate IsPublicApiGetPath(p: string, verb: string) {
    if verb != "GET" then false else StartsWithAny(p, PublicApiGetPaths)
  }

  /** The static-file exemption: asset prefixes, or a path ending in `.` and an asset extension. */
  predicate IsStaticAsset(p: string) {
    StartsWithAny(p, StaticPrefixes)
    || exists i | 0 <= i < |StaticExtensions| :: EndsWith(p, "." + StaticExtensions[i])
  }

  predicate Exempt(p: string, verb: string) {
    IsPublicPath(p) || IsPublicApiGetPath(p, verb) || IsStaticAsset(p)
  }

  predicate IsApi(p: string) {
    StartsWith(p, "/api/")
  }

  predicate IsHistoryArea(p: string) {
    StartsWith(p, "/admin/") || StartsWith(p, "/historial")
  }

  predicate IsAdminArea(p: string) {
    StartsWith(p, "/admin/usuarios") || StartsWith(p, "/admin/unidades") || StartsWith(p, "/admin/puestos")
  }

  predicate IsMapArea(p: string) {
    StartsWith(p, "/mapa")
  }

  /** What the three role gates demand of a role for a path. */
  predicate AllowedIn(p: string, rol: Rol) {
    && (IsHistoryArea(p) ==> TieneAccesoHistorial(rol))
    && (IsAdminArea(p) ==> EsAdmin(rol))
    && (IsMapArea(p) ==> TieneAccesoMapa(rol))
  }

  /** The answer to a role that fails a gate. */
  function Deny(p: string): Decision {
    if IsApi(p) then JsonError(403, MsgSinPermisos) else Redirect("/mi-asistencia")
  }

  /** A path under `/api/` is never in one of the role-gated page areas. */
  lemma ApiIsNotGatedArea(p: string)
    requires IsApi(p)
    ensures !IsHistoryArea(p) && !IsAdminArea(p) && !IsMapArea(p)
  {
    assert p[1] == 'a' && p[2] == 'p';
  }

  /** `middleware`: the first rule that applies decides. */
  function Middleware(path: string, verb: string, headers: Headers, token: Option<string>,
                      verify: string -> Option<UserSession>): (d: Decision)
    ensures d.JsonError? ==> d.status == 401 && IsApi(path)
    ensures d.Redirect? ==> !IsApi(path) && (d.location == "/login" || d.location == "/mi-asistencia")
    ensures d.Next? && !Exempt(path, verb) ==>
      token.Some? && verify(token.value).Some? &&
      d.headers == headers["x-user" := SessionJson(verify(token.value).value)]
  {
    if IsPublicPath(path) then Next(headers)
    else if IsPublicApiGetPath(path, verb) then Next(headers)
    else if IsStaticAsset(path) then Next(headers)
    else if token.None? || token.value == "" then
      if IsApi(path) then JsonError(401, Http.NoAutorizado) else Redirect("/login")
    else
      var user := verify(token.value);
      if user.None? then
        if IsApi(path) then JsonError(401, MsgTokenInvalido) else Redirect("/login")
      else if IsHistoryArea(path) && user.value.rol !in RolesConHistorial then
        GatedAreaIsNotApi(path);
        Deny(path)
      else if IsAdminArea(path) && user.value.rol !in RolesAdmin then
        GatedAreaIsNotApi(path);
        Deny(path)
      else if IsMapArea(path) && user.value.rol !in RolesConMapa then
        GatedAreaIsNotApi(path);
        Deny(path)
      else
        Next(headers["x-user" := SessionJson(user.value)])
  }

  lemma GatedAreaIsNotApi(p: string)
    ensures IsHistoryArea(p) || IsAdminArea(p) || IsMapArea(p) ==> !IsApi(p)
  {
    if IsApi(p) {
      ApiIsNotGatedArea(p);
    }
  }

  // Properties ----------------------------------------------------------------

  /** The four public prefixes, and public paths pass untouched whatever the token. */
  lemma PublicPathPasses(p: string, verb: string, headers: Headers, token: Option<string>,
                         verify: string -> Option<UserSession>)
    ensures IsPublicPath(p) <==>
      StartsWith(p, "/login") || StartsWith(p, "/api/auth/login") ||
      StartsWith(p, "/api/auth/logout") || StartsWith(p, "/api/auth/refresh")
    ensures IsPublicPath(p) ==> Middleware(p, verb, headers, token, verify) == Next(headers)
  {
    if StartsWith(p, "/login") { assert StartsWith(p, PublicPaths[0]); }
    if StartsWith(p, "/api/auth/login") { assert StartsWith(p, PublicPaths[1]); }
    if StartsWith(p, "/api/auth/logout") { assert StartsWith(p, PublicPaths[2]); }
    if StartsWith(p, "/api/auth/refresh") { assert StartsWith(p, PublicPaths[3]); }
  }

  /** Only GET requests can use the public API exemption, and only under units and posts. */
  lemma PublicApiGetRule(p: string, verb: string)
    ensures verb != "GET" ==> !IsPublicApiGetPath(p, verb)
    ensures verb == "GET" ==>
      (IsPublicApiGetPath(p, verb) <==> StartsWith(p, "/api/unidades") || StartsWith(p, "/api/puestos"))
  {
    if StartsWith(p, "/api/unidades") { assert StartsWith(p, PublicApiGetPaths[0]); }
    if StartsWith(p, "/api/puestos") { assert StartsWith(p, PublicApiGetPaths[1]); }
  }

  /** Without a token (or with an empty one): 401 under `/api/`, a redirect to the login page elsewhere. */
  lemma MissingTokenRule(p: string, verb: string, headers: Headers, token: Option<string>,
                         verify: string -> Option<UserSession>)
    requires !Exempt(p, verb)
    requires token.None? || token.value == ""
    ensures IsApi(p) ==> Middleware(p, verb, headers, token, verify) == JsonError(401, Http.NoAutorizado)
    ensures !IsApi(p) ==> Middleware(p, verb, headers, token, verify) == Redirect("/login")
  {
  }

  /** A token that does not verify splits the same way. */
  lemma InvalidTokenRule(p: string, verb: string, headers: Headers, token: string,
                         verify: string -> Option<UserSession>)
    requires !Exempt(p, verb)
    requires token != "" && verify(token).None?
    ensures IsApi(p) ==> Middleware(p, verb, headers, Some(token), verify) == JsonError(401, MsgTokenInvalido)
    ensures !IsApi(p) ==> Middleware(p, verb, headers, Some(token), verify) == Redirect("/login")
  {
  }

  /**
   * The page areas: `/admin/` and `/historial` need a history role, the three admin
   * sections need an admin role as well, `/mapa` needs a map role; a role that fails
   * is redirected to its own attendance page, and one that passes every gate goes on.
   */
  lemma RoleGates(p: string, verb: string, headers: Headers, token: string,
                  verify: string -> Option<UserSession>)
    requires !Exempt(p, verb)
    requires token != "" && verify(token).Some?
    ensures var rol := verify(token).value.rol;
      var d := Middleware(p, verb, headers, Some(token), verify);
      && (IsHistoryArea(p) && !TieneAccesoHistorial(rol) ==> d == Redirect("/mi-asistencia"))
      && (IsAdminArea(p) && !EsAdmin(rol) ==> d == Redirect("/mi-asistencia"))
      && (IsMapArea(p) && !TieneAccesoMapa(rol) ==> d == Redirect("/mi-asistencia"))
      && (AllowedIn(p, rol) ==> d.Next?)
  {
    var rol := verify(token).value.rol;
    if IsAdminArea(p) {
      assert IsHistoryArea(p);
      AdminHasEveryCapability(rol);
    }
    if IsHistoryArea(p) || IsAdminArea(p) || IsMapArea(p) {
      GatedAreaIsNotApi(p);
    }
  }

  /** Requests under `/api/` are never role-gated here: any verified session passes. */
  lemma ApiPassesAnyRole(p: string, verb: string, headers: Headers, token: string,
                         verify: string -> Option<UserSession>)
    requires IsApi(p) && !Exempt(p, verb)
    requires token != "" && verify(token).Some?
    ensures Middleware(p, verb, headers, Some(token), verify) ==
      Next(headers["x-user" := SessionJson(verify(token).value)])
  {
    ApiIsNotGatedArea(p);
  }

  /** An `oficina` session asking for the user administration page is sent to its own page. */
  lemma OficinaCannotAdministerUsers(verb: string, headers: Headers, token: string,
                                     verify: string -> Option<UserSession>)
    requires token != "" && verify(token).Some? && verify(token).value.rol == Oficina
    ensures Middleware("/admin/usuarios", verb, headers, Some(token), verify) == Redirect("/mi-asistencia")
  {
    var p := "/admin/usuarios";
    assert StartsWith(p, "/admin/");
    assert !IsPublicPath(p) by {
      forall i | 0 <= i < |PublicPaths| ensures !StartsWith(p, PublicPaths[i]) {
        assert p[1] == 'a' && p[2] == 'd';
      }
    }
    assert !IsPublicApiGetPath(p, verb) by {
      forall i | 0 <= i < |PublicApiGetPaths| ensures !StartsWith(p, PublicApiGetPaths[i]) {
        assert p[2] == 'd';
      }
    }
    assert !IsStaticAsset(p) by {
      forall i | 0 <= i < |StaticPrefixes| ensures !StartsWith(p, StaticPrefixes[i]) {
        assert p[1] == 'a';
      }
      forall i | 0 <= i < |StaticExtensions| ensures !EndsWith(p, "." + StaticExtensions[i]) {
        var e := "." + StaticExtensions[i];
        if |e| <= |p| {
          assert p[|p| - |e|..][0] == p[|p| - |e|];
          assert p[|p| - |e|] != '.';
        }
      }
    }
  }
}
